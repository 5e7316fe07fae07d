/** Room in the pages of a whole tree: exactly when an insertion fails, and workloads for which none does. */
module KvTreeRoom {
  import opened Collections
  import opened Sequences
  import opened KvKeys
  import opened KvTree
  import opened KvTreeProofs
  import opened KvTreeSpace

  // ----- The pages on the way to a key -----

  /** A branch page on the way to a key: its keys, and the child that the way takes. */
  datatype Stop = Stop(keys: seq<Key>, at: nat)

  function KeysOf(kids: seq<Kid>): (keys: seq<Key>)
    ensures |keys| == |kids| && forall i :: 0 <= i < |kids| ==> keys[i] == kids[i].key
  {
    seq(|kids|, i requires 0 <= i < |kids| => kids[i].key)
  }

  /** The branches from the root down to the leaf of a key. */
  function Way(t: Tree, k: Key): seq<Stop> {
    match t
    case Leaf(_, _) => []
    case Branch(kids) =>
      if kids == [] then []
      else
        var i := ChildIndex(kids, k);
        [Stop(KeysOf(kids), i)] + Way(kids[i].tree, k)
  }

  function LeafFor(t: Tree, k: Key): Tree {
    match t
    case Leaf(_, _) => t
    case Branch(kids) => if kids == [] then t else LeafFor(kids[ChildIndex(kids, k)].tree, k)
  }

  // ----- Bytes -----

  function Lengths(keys: seq<Key>): nat {
    if keys == [] then 0 else Lengths(keys[..|keys| - 1]) + |keys[|keys| - 1]|
  }

  /** A half of a leaf, table and data, exceeds the page. */
  predicate PairsTooLarge(pageSize: nat, es: seq<Pair>) {
    var mid := |es| / 2;
    || 24 + 32 * mid + TotalSize(es[..mid]) > pageSize
    || 24 + 32 * (|es| - mid) + TotalSize(es[mid..]) > pageSize
  }

  /** A branch has no room for one more key. */
  predicate Full(pageSize: nat, keys: seq<Key>, sep: Key) {
    24 + 40 * (|keys| + 1) + Lengths(keys) + |sep| > pageSize
  }

  /** A half of a branch, table and keys, exceeds the page. The first key of a page takes no room. */
  predicate KeysTooLarge(pageSize: nat, keys: seq<Key>)
    requires |keys| >= 2
  {
    var mid := |keys| / 2;
    || 24 + 40 * mid + Lengths(keys[1..mid]) > pageSize
    || 24 + 40 * (|keys| - mid) + Lengths(keys[mid + 1..]) > pageSize
  }

  /** The keys of a branch after its child on the way has split at `sep`. */
  function Widened(stop: Stop, sep: Key): seq<Key>
    requires stop.at < |stop.keys|
  {
    stop.keys[..stop.at + 1] + [sep] + stop.keys[stop.at + 1..]
  }

  /** What becomes of a separator that a split hands upwards: a branch takes it, a branch splits and cannot, or
      it leaves the old root as `sep`. */
  datatype Fate = Taken | Stuck | Risen(sep: Key)

  function AtStop(pageSize: nat, stop: Stop, sep: Key): Fate {
    if stop.at >= |stop.keys| then Stuck
    else if !Full(pageSize, stop.keys, sep) then Taken
    else
      var keys := Widened(stop, sep);
      if KeysTooLarge(pageSize, keys) then Stuck else Risen(keys[|keys| / 2])
  }

  /** From the last branch on the way up to the first. */
  function Climb(pageSize: nat, way: seq<Stop>, sep: Key): Fate {
    if way == [] then Risen(sep)
    else
      match AtStop(pageSize, way[|way| - 1], sep)
      case Taken => Taken
      case Stuck => Stuck
      case Risen(s) => Climb(pageSize, way[..|way| - 1], s)
  }

  /** An insertion has no room: its pair does not fit on the leaf, and the leaf cannot be split, or a branch
      above it has to be and cannot, or the separator is too long for a new root. */
  predicate NoRoom(pageSize: nat, t: Tree, k: Key, v: Value) {
    var leaf := LeafFor(t, k);
    leaf.Leaf? && 24 + 32 * (|leaf.entries| + 1) + |k| + |v| > leaf.dataEnd &&
    var es := Upsert(leaf.entries, k, v);
    || |es| < 2 || PairsTooLarge(pageSize, es)
    || match Climb(pageSize, Way(t, k), es[|es| / 2].key)
       case Taken => false
       case Stuck => true
       case Risen(sep) => 24 + 40 * 2 + |sep| > pageSize
  }

  // ----- Exactly when an insertion fails -----

  /** One branch more above. */
  function Onward(pageSize: nat, fate: Fate, stop: Stop): Fate {
    if fate.Risen? then AtStop(pageSize, stop, fate.sep) else fate
  }

  lemma {:induction false} ClimbConcat(pageSize: nat, stop: Stop, way: seq<Stop>, sep: Key)
    ensures Climb(pageSize, [stop] + way, sep) == Onward(pageSize, Climb(pageSize, way, sep), stop)
    decreases |way|
  {
    var all := [stop] + way;
    if way == [] {
      assert all == [stop];
      FrontOfOne(stop);
    } else {
      ConcatFront([stop], way);
      var at := AtStop(pageSize, way[|way| - 1], sep);
      if at.Risen? {
        ClimbConcat(pageSize, stop, way[..|way| - 1], at.sep);
      }
    }
  }

  lemma {:induction false} LengthsConcat(a: seq<Key>, b: seq<Key>)
    ensures Lengths(a + b) == Lengths(a) + Lengths(b)
    decreases |b|
  {
    if b == [] {
      ConcatEmpty(a);
    } else {
      ConcatFront(a, b);
      LengthsConcat(a, b[..|b| - 1]);
    }
  }

  lemma {:induction false} KeyBytesAreLengths(kids: seq<Kid>)
    ensures KeyBytes(kids) == Lengths(KeysOf(kids))
  {
    if kids != [] {
      assert KeysOf(kids)[..|kids| - 1] == KeysOf(kids[..|kids| - 1]);
      KeyBytesAreLengths(kids[..|kids| - 1]);
    }
  }

  lemma {:induction false} FirstKeyBytes(kids: seq<Kid>)
    requires |kids| > 0
    ensures KeyBytes(DropFirstKey(kids)) == Lengths(KeysOf(kids)[1..])
  {
    var dropped := DropFirstKey(kids);
    KeyBytesAreLengths(dropped);
    assert KeysOf(dropped) == [[]] + KeysOf(kids)[1..];
    LengthsConcat([[]], KeysOf(kids)[1..]);
    assert Lengths([[]]) == 0 by { FrontOfOne<Key>([]); }
  }

  lemma {:induction false} SplitBranchFails(pageSize: nat, kids: seq<Kid>)
    requires |kids| >= 2
    ensures var out, keys := SplitBranch(pageSize, kids), KeysOf(kids);
            if KeysTooLarge(pageSize, keys) then out.Overflow? else out.Split? && out.separator == keys[|keys| / 2]
  {
    var mid, keys := |kids| / 2, KeysOf(kids);
    FirstKeyBytes(kids[..mid]);
    FirstKeyBytes(kids[mid..]);
    assert KeysOf(kids[..mid])[1..] == keys[1..mid];
    assert KeysOf(kids[mid..])[1..] == keys[mid + 1..];
  }

  /** The fate that an outcome of an insertion below a node stands for. */
  ghost predicate Fares(out: Outcome, fate: Fate) {
    match out
    case Kept(_) => fate.Taken?
    case Overflow => fate.Stuck?
    case Split(_, sep, _) => fate == Risen(sep)
  }

  lemma {:induction false} KeysReplaced(kids: seq<Kid>, i: nat, l: Tree, sep: Key, r: Tree)
    requires i < |kids|
    ensures KeysOf(kids[i := Kid(kids[i].key, l)]) == KeysOf(kids)
    ensures KeysOf(kids[..i] + [Kid(kids[i].key, l), Kid(sep, r)] + kids[i + 1..])
            == Widened(Stop(KeysOf(kids), i), sep)
  {
  }

  lemma {:induction false} AbsorbFares(pageSize: nat, kids: seq<Kid>, lo: Key, hi: Option<Key>, i: nat, l: Tree,
                                       sep: Key, r: Tree)
    requires SeparatorsOk(kids, lo, hi) && i < |kids|
    requires Less(LowOf(kids, i, lo), sep) && KeyIn(sep, LowOf(kids, i, lo), HighOf(kids, i, hi))
    ensures Fares(Absorb(pageSize, kids, i, Split(l, sep, r)), AtStop(pageSize, Stop(KeysOf(kids), i), sep))
  {
    var replaced := kids[i := Kid(kids[i].key, l)];
    var more := kids[..i] + [Kid(kids[i].key, l), Kid(sep, r)] + kids[i + 1..];
    ReplacedAndAdded(kids, lo, hi, i, l, sep, r);
    KeysReplaced(kids, i, l, sep, r);
    KeyBytesAreLengths(replaced);
    SplitBranchFails(pageSize, more);
  }

  lemma {:induction false} SplitLeafFares(pageSize: nat, es: seq<Pair>)
    ensures var out := SplitLeaf(pageSize, es);
            if |es| < 2 || PairsTooLarge(pageSize, es) then out.Overflow?
            else out.Split? && out.separator == es[|es| / 2].key
  {
  }

  /** How an insertion below a node ends, in terms of its way. */
  ghost function FateOf(pageSize: nat, t: Tree, k: Key, v: Value): Fate {
    var leaf := LeafFor(t, k);
    if !leaf.Leaf? then Stuck
    else if 24 + 32 * (|leaf.entries| + 1) + |k| + |v| <= leaf.dataEnd then Taken
    else
      var es := Upsert(leaf.entries, k, v);
      if |es| < 2 || PairsTooLarge(pageSize, es) then Stuck else Climb(pageSize, Way(t, k), es[|es| / 2].key)
  }

  lemma {:induction false} InsertIntoFares(pageSize: nat, t: Tree, depth: nat, lo: Key, hi: Option<Key>, k: Key,
                                           v: Value)
    requires Ordered(t, depth, lo, hi) && KeyIn(k, lo, hi)
    ensures Fares(InsertInto(pageSize, t, k, v), FateOf(pageSize, t, k, v))
    decreases t
  {
    match t
    case Leaf(es, _) =>
      SplitLeafFares(pageSize, Upsert(es, k, v));
    case Branch(kids) =>
      var i := ChildIndex(kids, k);
      var child := InsertInto(pageSize, kids[i].tree, k, v);
      ChildRange(kids, depth, lo, hi, k);
      InsertIntoFares(pageSize, kids[i].tree, depth - 1, LowOf(kids, i, lo), HighOf(kids, i, hi), k, v);
      InsertIntoAchieves(pageSize, kids[i].tree, depth - 1, LowOf(kids, i, lo), HighOf(kids, i, hi), k, v);
      BranchFate(pageSize, kids, k, v);
      if child.Split? {
        AbsorbFares(pageSize, kids, lo, hi, i, child.left, child.separator, child.right);
      }
  }

  lemma {:induction false} BranchFate(pageSize: nat, kids: seq<Kid>, k: Key, v: Value)
    requires kids != []
    ensures var i := ChildIndex(kids, k);
            FateOf(pageSize, Branch(kids), k, v)
            == Onward(pageSize, FateOf(pageSize, kids[i].tree, k, v), Stop(KeysOf(kids), i))
  {
    var i := ChildIndex(kids, k);
    var leaf := LeafFor(kids[i].tree, k);
    if leaf.Leaf? {
      var es := Upsert(leaf.entries, k, v);
      if |es| >= 2 {
        ClimbConcat(pageSize, Stop(KeysOf(kids), i), Way(kids[i].tree, k), es[|es| / 2].key);
      }
    }
  }

  /** Exactly when an insertion fails: the bytes of the pages on the way to the key decide it. */
  lemma {:induction false} InsertFailsIff(pageSize: nat, t: Tree, k: Key, v: Value)
    requires TreeOk(t)
    ensures Insert(pageSize, t, k, v) == None <==> NoRoom(pageSize, t, k, v)
  {
    var depth: nat :| Ordered(t, depth, [], None);
    InsertIntoFares(pageSize, t, depth, [], None, k, v);
    LeafForIsLeaf(t, depth, [], None, k);
    var out := InsertInto(pageSize, t, k, v);
    if out.Split? {
      RootBytes(out.left, out.separator, out.right);
    }
  }

  lemma {:induction false} LeafForIsLeaf(t: Tree, depth: nat, lo: Key, hi: Option<Key>, k: Key)
    requires Ordered(t, depth, lo, hi) && KeyIn(k, lo, hi)
    ensures LeafFor(t, k).Leaf? && Lookup(LeafFor(t, k).entries, k) == Get(t, k)
    decreases t
  {
    if t.Branch? {
      var i := ChildIndex(t.kids, k);
      ChildRange(t.kids, depth, lo, hi, k);
      LeafForIsLeaf(t.kids[i].tree, depth - 1, LowOf(t.kids, i, lo), HighOf(t.kids, i, hi), k);
    }
  }

  lemma {:induction false} RootBytes(l: Tree, sep: Key, r: Tree)
    ensures KeyBytes([Kid([], l), Kid(sep, r)]) == |sep|
  {
    var kids := [Kid([], l), Kid(sep, r)];
    assert kids[..1] == [Kid([], l)] && kids[..1][..0] == [];
    assert KeyBytes(kids[..1]) == 0;
  }

  /** An update on a page with a single pair fails exactly when it does not fit beside the old pair. */
  lemma {:induction false} SinglePairUpdateFailsIff(pageSize: nat, k: Key, w: Value, end: nat, v: Value)
    ensures Insert(pageSize, Leaf([Pair(k, w)], end), k, v) == None <==> 88 + |k| + |v| > end
  {
    var es := [Pair(k, w)];
    LessIrreflexive(k);
    LowerBoundIs(es, k, 0);
    assert |Upsert(es, k, v)| == 1;
  }

  // ----- The branch counterpart of the split space bound -----

  lemma {:induction false} LengthsSplit(keys: seq<Key>, i: nat)
    requires i <= |keys|
    ensures Lengths(keys) == Lengths(keys[..i]) + Lengths(keys[i..])
  {
    SplitAt(keys, i);
    LengthsConcat(keys[..i], keys[i..]);
  }

  lemma {:induction false} WidenedLengths(stop: Stop, sep: Key)
    requires stop.at < |stop.keys|
    ensures Lengths(Widened(stop, sep)) == Lengths(stop.keys) + |sep|
  {
    var a, b := stop.keys[..stop.at + 1], stop.keys[stop.at + 1..];
    LengthsSplit(stop.keys, stop.at + 1);
    LengthsConcat(a + [sep], b);
    LengthsConcat(a, [sep]);
    FrontOfOne(sep);
  }

  lemma {:induction false} HalfLengths(keys: seq<Key>, mid: nat)
    requires 0 < mid < |keys|
    ensures Lengths(keys[1..mid]) + Lengths(keys[mid + 1..]) <= Lengths(keys)
  {
    LengthsSplit(keys, mid);
    LengthsSplit(keys[..mid], 1);
    LengthsSplit(keys[mid..], 1);
    assert keys[..mid][1..] == keys[1..mid] && keys[mid..][1..] == keys[mid + 1..];
  }

  /** If a separator costs no more than the table rows of half the children, both halves of a branch that was
      within its page fit. */
  lemma {:induction false} BranchSplitFits(pageSize: nat, stop: Stop, sep: Key)
    requires stop.at < |stop.keys| && 24 + 40 * |stop.keys| + Lengths(stop.keys) <= pageSize
    requires 40 + |sep| <= 40 * ((|stop.keys| + 1) / 2)
    ensures !AtStop(pageSize, stop, sep).Stuck?
  {
    var keys, n := Widened(stop, sep), |stop.keys|;
    WidenedLengths(stop, sep);
    RowsOfHalves(n, |sep|);
    HalvesFit(pageSize, keys);
  }

  lemma {:induction false} RowsOfHalves(n: nat, sep: nat)
    requires 40 + sep <= 40 * ((n + 1) / 2)
    ensures 40 * ((n + 2) / 2) + sep <= 40 * n
  {
    assert (n + 2) / 2 + (n + 1) / 2 == n + 1;
  }

  lemma {:induction false} HalvesFit(pageSize: nat, keys: seq<Key>)
    requires |keys| >= 2 && 24 + 40 * ((|keys| + 1) / 2) + Lengths(keys) <= pageSize
    ensures !KeysTooLarge(pageSize, keys)
  {
    HalfLengths(keys, |keys| / 2);
    assert |keys| - |keys| / 2 == (|keys| + 1) / 2;
  }

  // ----- Workloads that always fit -----

  /** So many rows that the rows of half of them hold a row and `extra` bytes more. */
  function Rows(row: nat, extra: nat): nat
    requires row > 0
  {
    2 * ((2 * row + extra - 1) / row)
  }

  lemma RowsSuffice(row: nat, extra: nat, n: nat)
    requires row > 0 && n >= Rows(row, extra)
    ensures row + extra <= row * (n / 2) && n >= 2
  {
    var half := (2 * row + extra - 1) / row;
    assert half * row > row + extra - 1;
    assert n / 2 >= half;
    assert (n / 2) * row >= half * row;
    assert half < 1 ==> half * row <= 0;
  }

  lemma FewerRows(n: nat, m: nat, cost: nat)
    requires n * cost > m * cost
    ensures n > m
  {
    assert n <= m ==> n * cost <= m * cost;
  }

  /** Pages large enough for pairs of up to `pairMax` bytes and keys of up to `keyMax` bytes. */
  predicate PagesSuit(pageSize: nat, pairMax: nat, keyMax: nat) {
    && 24 + Rows(32, pairMax) * (32 + pairMax) <= pageSize
    && 24 + Rows(40, keyMax) * (40 + keyMax) <= pageSize
  }

  predicate SmallPair(p: Pair, pairMax: nat, keyMax: nat) {
    |p.key| <= keyMax && PairSize(p) <= pairMax
  }

  /** Every page of the tree is within its bounds, holds small pairs and keys only, and a leaf has used up no
      more than the largest pair for each of its pairs. */
  ghost predicate Roomy(pageSize: nat, pairMax: nat, keyMax: nat, t: Tree)
    decreases t, 1
  {
    match t
    case Leaf(es, end) =>
      && Sized(pageSize, t) && pageSize <= end + pairMax * |es|
      && forall i :: 0 <= i < |es| ==> SmallPair(es[i], pairMax, keyMax)
    case Branch(kids) =>
      && BranchBuilds(pageSize, kids)
      && forall i {:trigger KidRoomy(pageSize, pairMax, keyMax, kids, i)} :: 0 <= i < |kids| ==>
           KidRoomy(pageSize, pairMax, keyMax, kids, i)
  }

  ghost predicate KidRoomy(pageSize: nat, pairMax: nat, keyMax: nat, kids: seq<Kid>, i: nat)
    requires i < |kids|
    decreases kids, 0
  {
    |kids[i].key| <= keyMax && Roomy(pageSize, pairMax, keyMax, kids[i].tree)
  }

  /** The pair for the key, if there is one, is not smaller than the new one. */
  predicate NotGrowing(old_: Option<Value>, v: Value) {
    old_.Some? ==> |v| <= |old_.value|
  }

  ghost predicate RoomyOutcome(pageSize: nat, pairMax: nat, keyMax: nat, out: Outcome) {
    match out
    case Overflow => false
    case Kept(t) => Roomy(pageSize, pairMax, keyMax, t)
    case Split(l, sep, r) =>
      Roomy(pageSize, pairMax, keyMax, l) && Roomy(pageSize, pairMax, keyMax, r) && |sep| <= keyMax
  }

  lemma {:induction false} TotalSizeBound(es: seq<Pair>, pairMax: nat)
    requires forall i :: 0 <= i < |es| ==> PairSize(es[i]) <= pairMax
    ensures TotalSize(es) <= pairMax * |es|
  {
    if es != [] {
      TotalSizeBound(es[..|es| - 1], pairMax);
      assert pairMax * |es| == pairMax * (|es| - 1) + pairMax;
    }
  }

  lemma {:induction false} BuiltRoomy(pageSize: nat, pairMax: nat, keyMax: nat, es: seq<Pair>)
    requires LeafBuilds(pageSize, es) && forall i :: 0 <= i < |es| ==> SmallPair(es[i], pairMax, keyMax)
    ensures Roomy(pageSize, pairMax, keyMax, BuildLeaf(pageSize, es))
  {
    TotalSizeBound(es, pairMax);
  }

  lemma {:induction false} UpsertSmall(es: seq<Pair>, k: Key, v: Value, pairMax: nat, keyMax: nat)
    requires forall i :: 0 <= i < |es| ==> SmallPair(es[i], pairMax, keyMax)
    requires SmallPair(Pair(k, v), pairMax, keyMax)
    ensures var us := Upsert(es, k, v);
            && |es| <= |us| <= |es| + 1
            && forall i :: 0 <= i < |us| ==> SmallPair(us[i], pairMax, keyMax)
  {
  }

  lemma {:induction false} LeafPutRoomy(pageSize: nat, pairMax: nat, keyMax: nat, t: Tree, k: Key, v: Value)
    requires t.Leaf? && Roomy(pageSize, pairMax, keyMax, t) && SmallPair(Pair(k, v), pairMax, keyMax)
    requires NotGrowing(Lookup(t.entries, k), v) && LeafFits(t, k, v)
    ensures Roomy(pageSize, pairMax, keyMax, LeafPut(t, k, v))
  {
    LeafPutSized(pageSize, t, k, v);
    UpsertSmall(t.entries, k, v, pairMax, keyMax);
    var n := |t.entries|;
    assert pairMax * (n + 1) == pairMax * n + pairMax;
  }

  lemma {:induction false} FullLeafHasMany(pageSize: nat, pairMax: nat, t: Tree, k: Key, v: Value)
    requires t.Leaf? && pageSize <= t.dataEnd + pairMax * |t.entries| && |k| + |v| <= pairMax
    requires 24 + Rows(32, pairMax) * (32 + pairMax) <= pageSize && !LeafFits(t, k, v)
    ensures |t.entries| >= Rows(32, pairMax)
  {
    var n := |t.entries|;
    assert (n + 1) * (32 + pairMax) == 32 * (n + 1) + pairMax * n + pairMax;
    FewerRows(n + 1, Rows(32, pairMax), 32 + pairMax);
  }

  lemma {:induction false} SplitLeafRoomy(pageSize: nat, pairMax: nat, keyMax: nat, t: Tree, k: Key, v: Value)
    requires t.Leaf? && Roomy(pageSize, pairMax, keyMax, t) && SmallPair(Pair(k, v), pairMax, keyMax)
    requires PagesSuit(pageSize, pairMax, keyMax) && !LeafFits(t, k, v)
    ensures RoomyOutcome(pageSize, pairMax, keyMax, SplitLeaf(pageSize, Upsert(t.entries, k, v)))
  {
    var us := Upsert(t.entries, k, v);
    UpsertSmall(t.entries, k, v, pairMax, keyMax);
    FullLeafHasMany(pageSize, pairMax, t, k, v);
    RowsSuffice(32, pairMax, |us|);
    SplitFits(pageSize, t, k, v);
    BuiltRoomy(pageSize, pairMax, keyMax, us[..|us| / 2]);
    BuiltRoomy(pageSize, pairMax, keyMax, us[|us| / 2..]);
  }

  lemma {:induction false} LengthsBound(keys: seq<Key>, keyMax: nat)
    requires forall i :: 0 <= i < |keys| ==> |keys[i]| <= keyMax
    ensures Lengths(keys) <= keyMax * |keys|
  {
    if keys != [] {
      LengthsBound(keys[..|keys| - 1], keyMax);
      assert keyMax * |keys| == keyMax * (|keys| - 1) + keyMax;
    }
  }

  lemma {:induction false} FullBranchHasMany(pageSize: nat, keyMax: nat, keys: seq<Key>, sep: Key)
    requires (forall i :: 0 <= i < |keys| ==> |keys[i]| <= keyMax) && |sep| <= keyMax
    requires 24 + Rows(40, keyMax) * (40 + keyMax) <= pageSize && Full(pageSize, keys, sep)
    ensures |keys| + 1 >= Rows(40, keyMax)
  {
    var n := |keys|;
    LengthsBound(keys, keyMax);
    assert (n + 1) * (40 + keyMax) == 40 * (n + 1) + keyMax * n + keyMax;
    FewerRows(n + 1, Rows(40, keyMax), 40 + keyMax);
  }

  /** The kids of a branch, each within its bounds. */
  ghost predicate KidsRoomy(pageSize: nat, pairMax: nat, keyMax: nat, kids: seq<Kid>) {
    forall i {:trigger KidRoomy(pageSize, pairMax, keyMax, kids, i)} :: 0 <= i < |kids| ==>
      KidRoomy(pageSize, pairMax, keyMax, kids, i)
  }

  lemma {:induction false} ReplaceRoomy(pageSize: nat, pairMax: nat, keyMax: nat, kids: seq<Kid>, i: nat, t: Tree)
    requires KidsRoomy(pageSize, pairMax, keyMax, kids) && i < |kids| && Roomy(pageSize, pairMax, keyMax, t)
    ensures KidsRoomy(pageSize, pairMax, keyMax, kids[i := Kid(kids[i].key, t)])
    ensures KeyBytes(kids[i := Kid(kids[i].key, t)]) == KeyBytes(kids)
  {
    var new_ := kids[i := Kid(kids[i].key, t)];
    forall j | 0 <= j < |new_|
      ensures KidRoomy(pageSize, pairMax, keyMax, new_, j)
    {
      assert KidRoomy(pageSize, pairMax, keyMax, kids, j);
    }
    KeyBytesAreLengths(kids);
    KeyBytesAreLengths(new_);
    assert KeysOf(new_) == KeysOf(kids);
  }

  lemma {:induction false} SplicedRoomy(pageSize: nat, pairMax: nat, keyMax: nat, kids: seq<Kid>, i: nat, l: Tree,
                                        sep: Key, r: Tree)
    requires KidsRoomy(pageSize, pairMax, keyMax, kids) && i < |kids|
    requires RoomyOutcome(pageSize, pairMax, keyMax, Split(l, sep, r))
    ensures KidsRoomy(pageSize, pairMax, keyMax, kids[..i] + [Kid(kids[i].key, l), Kid(sep, r)] + kids[i + 1..])
  {
    var more := kids[..i] + [Kid(kids[i].key, l), Kid(sep, r)] + kids[i + 1..];
    forall j | 0 <= j < |more|
      ensures KidRoomy(pageSize, pairMax, keyMax, more, j)
    {
      if j <= i {
        assert KidRoomy(pageSize, pairMax, keyMax, kids, j);
      } else if j > i + 1 {
        assert KidRoomy(pageSize, pairMax, keyMax, kids, j - 1);
        assert more[j] == kids[j - 1];
      }
    }
  }

  lemma {:induction false} HalfRoomy(pageSize: nat, pairMax: nat, keyMax: nat, kids: seq<Kid>, from: nat, to: nat)
    requires KidsRoomy(pageSize, pairMax, keyMax, kids) && from < to <= |kids|
    requires BranchBuilds(pageSize, DropFirstKey(kids[from..to]))
    ensures Roomy(pageSize, pairMax, keyMax, Branch(DropFirstKey(kids[from..to])))
  {
    var half := DropFirstKey(kids[from..to]);
    forall j | 0 <= j < |half|
      ensures KidRoomy(pageSize, pairMax, keyMax, half, j)
    {
      assert KidRoomy(pageSize, pairMax, keyMax, kids, from + j);
    }
  }

  lemma {:induction false} SplitBranchRoomy(pageSize: nat, pairMax: nat, keyMax: nat, kids: seq<Kid>)
    requires KidsRoomy(pageSize, pairMax, keyMax, kids) && SplitBranch(pageSize, kids).Split?
    ensures RoomyOutcome(pageSize, pairMax, keyMax, SplitBranch(pageSize, kids))
  {
    var mid := |kids| / 2;
    assert kids[..mid] == kids[0..mid] && kids[mid..] == kids[mid..|kids|];
    HalfRoomy(pageSize, pairMax, keyMax, kids, 0, mid);
    HalfRoomy(pageSize, pairMax, keyMax, kids, mid, |kids|);
    assert KidRoomy(pageSize, pairMax, keyMax, kids, mid);
  }

  lemma {:induction false} StopNotStuck(pageSize: nat, pairMax: nat, keyMax: nat, kids: seq<Kid>, i: nat, sep: Key)
    requires KidsRoomy(pageSize, pairMax, keyMax, kids) && BranchBuilds(pageSize, kids) && i < |kids| && |sep| <= keyMax
    requires PagesSuit(pageSize, pairMax, keyMax)
    ensures !AtStop(pageSize, Stop(KeysOf(kids), i), sep).Stuck?
  {
    var keys := KeysOf(kids);
    KeyBytesAreLengths(kids);
    forall j | 0 <= j < |keys|
      ensures |keys[j]| <= keyMax
    {
      assert KidRoomy(pageSize, pairMax, keyMax, kids, j);
    }
    if Full(pageSize, keys, sep) {
      FullBranchHasMany(pageSize, keyMax, keys, sep);
      RowsSuffice(40, keyMax, |keys| + 1);
      BranchSplitFits(pageSize, Stop(keys, i), sep);
    }
  }

  lemma {:induction false} WidenedBuilds(pageSize: nat, kids: seq<Kid>, i: nat, l: Tree, sep: Key, r: Tree)
    requires i < |kids| && BranchFits(pageSize, kids[i := Kid(kids[i].key, l)], sep)
    ensures BranchBuilds(pageSize, kids[..i] + [Kid(kids[i].key, l), Kid(sep, r)] + kids[i + 1..])
  {
    var replaced := kids[i := Kid(kids[i].key, l)];
    var more := kids[..i] + [Kid(kids[i].key, l), Kid(sep, r)] + kids[i + 1..];
    KeysReplaced(kids, i, l, sep, r);
    KeyBytesAreLengths(replaced);
    KeyBytesAreLengths(more);
    WidenedLengths(Stop(KeysOf(kids), i), sep);
  }

  lemma {:induction false} AbsorbRoomy(pageSize: nat, pairMax: nat, keyMax: nat, kids: seq<Kid>, lo: Key,
                                       hi: Option<Key>, i: nat, l: Tree, sep: Key, r: Tree)
    requires SeparatorsOk(kids, lo, hi) && i < |kids|
    requires Less(LowOf(kids, i, lo), sep) && KeyIn(sep, LowOf(kids, i, lo), HighOf(kids, i, hi))
    requires PagesSuit(pageSize, pairMax, keyMax) && Roomy(pageSize, pairMax, keyMax, Branch(kids))
    requires RoomyOutcome(pageSize, pairMax, keyMax, Split(l, sep, r))
    ensures RoomyOutcome(pageSize, pairMax, keyMax, Absorb(pageSize, kids, i, Split(l, sep, r)))
  {
    var replaced := kids[i := Kid(kids[i].key, l)];
    var more := kids[..i] + [Kid(kids[i].key, l), Kid(sep, r)] + kids[i + 1..];
    ReplacedAndAdded(kids, lo, hi, i, l, sep, r);
    SplicedRoomy(pageSize, pairMax, keyMax, kids, i, l, sep, r);
    AbsorbFares(pageSize, kids, lo, hi, i, l, sep, r);
    StopNotStuck(pageSize, pairMax, keyMax, kids, i, sep);
    if BranchFits(pageSize, replaced, sep) {
      WidenedBuilds(pageSize, kids, i, l, sep, r);
    } else {
      SplitBranchRoomy(pageSize, pairMax, keyMax, more);
    }
  }

  lemma {:induction false} InsertIntoRoomy(pageSize: nat, pairMax: nat, keyMax: nat, t: Tree, depth: nat, lo: Key,
                                           hi: Option<Key>, k: Key, v: Value)
    requires Ordered(t, depth, lo, hi) && KeyIn(k, lo, hi)
    requires PagesSuit(pageSize, pairMax, keyMax) && Roomy(pageSize, pairMax, keyMax, t)
    requires SmallPair(Pair(k, v), pairMax, keyMax) && NotGrowing(Get(t, k), v)
    ensures RoomyOutcome(pageSize, pairMax, keyMax, InsertInto(pageSize, t, k, v))
    decreases t
  {
    match t
    case Leaf(_, _) =>
      if LeafFits(t, k, v) {
        LeafPutRoomy(pageSize, pairMax, keyMax, t, k, v);
      } else {
        SplitLeafRoomy(pageSize, pairMax, keyMax, t, k, v);
      }
    case Branch(kids) =>
      var i := ChildIndex(kids, k);
      var child := InsertInto(pageSize, kids[i].tree, k, v);
      ChildRange(kids, depth, lo, hi, k);
      assert KidRoomy(pageSize, pairMax, keyMax, kids, i);
      InsertIntoRoomy(pageSize, pairMax, keyMax, kids[i].tree, depth - 1, LowOf(kids, i, lo), HighOf(kids, i, hi), k,
                      v);
      InsertIntoAchieves(pageSize, kids[i].tree, depth - 1, LowOf(kids, i, lo), HighOf(kids, i, hi), k, v);
      if child.Split? {
        AbsorbRoomy(pageSize, pairMax, keyMax, kids, lo, hi, i, child.left, child.separator, child.right);
      } else {
        ReplaceRoomy(pageSize, pairMax, keyMax, kids, i, child.tree);
      }
  }

  /** An insertion that a caller can see to be harmless: small pairs, pages that suit them, and no pair that
      grows. It succeeds, and the next one is in the same position. */
  lemma {:induction false} InsertHasRoom(pageSize: nat, pairMax: nat, keyMax: nat, t: Tree, k: Key, v: Value)
    requires TreeOk(t) && PagesSuit(pageSize, pairMax, keyMax) && Roomy(pageSize, pairMax, keyMax, t)
    requires SmallPair(Pair(k, v), pairMax, keyMax) && NotGrowing(Get(t, k), v)
    ensures Insert(pageSize, t, k, v).Some? && Roomy(pageSize, pairMax, keyMax, Insert(pageSize, t, k, v).value)
  {
    var depth: nat :| Ordered(t, depth, [], None);
    InsertIntoRoomy(pageSize, pairMax, keyMax, t, depth, [], None, k, v);
    var out := InsertInto(pageSize, t, k, v);
    if out.Split? {
      RowsSuffice(40, keyMax, Rows(40, keyMax));
      NewRootRoomy(pageSize, pairMax, keyMax, out.left, out.separator, out.right, Rows(40, keyMax));
    }
  }

  lemma {:induction false} NewRootRoomy(pageSize: nat, pairMax: nat, keyMax: nat, l: Tree, sep: Key, r: Tree, rows: nat)
    requires RoomyOutcome(pageSize, pairMax, keyMax, Split(l, sep, r))
    requires rows >= 2 && 24 + rows * (40 + keyMax) <= pageSize
    ensures BranchBuilds(pageSize, [Kid([], l), Kid(sep, r)])
    ensures Roomy(pageSize, pairMax, keyMax, Branch([Kid([], l), Kid(sep, r)]))
  {
    var kids := [Kid([], l), Kid(sep, r)];
    RootBytes(l, sep, r);
    assert rows * (40 + keyMax) >= 2 * (40 + keyMax);
    assert KidRoomy(pageSize, pairMax, keyMax, kids, 0) && KidRoomy(pageSize, pairMax, keyMax, kids, 1);
  }

  /** Insertions one after the other, as long as they succeed. */
  function InsertAll(pageSize: nat, t: Tree, ops: seq<Pair>): Option<Tree> {
    if ops == [] then Some(t)
    else
      match InsertAll(pageSize, t, ops[..|ops| - 1])
      case None => None
      case Some(u) => Insert(pageSize, u, ops[|ops| - 1].key, ops[|ops| - 1].value)
  }

  /** No insertion makes the pair of a key larger than an earlier one did. */
  ghost predicate NoneGrows(ops: seq<Pair>) {
    forall i, j :: 0 <= i < j < |ops| && ops[i].key == ops[j].key ==> |ops[j].value| <= |ops[i].value|
  }

  lemma {:induction false} UpsertAllFrom(ops: seq<Pair>)
    ensures Sorted(UpsertAll([], ops)) && forall p :: p in UpsertAll([], ops) ==> p in ops
  {
    if ops != [] {
      var front, last := ops[..|ops| - 1], ops[|ops| - 1];
      UpsertAllFrom(front);
      UpsertSorted(UpsertAll([], front), last.key, last.value);
    }
  }

  /** Every list of insertions of small pairs into an empty tree succeeds if none of them makes a pair grow;
      the tree then holds exactly the pairs that were set last. */
  lemma {:induction false} WorkloadFits(pageSize: nat, pairMax: nat, keyMax: nat, ops: seq<Pair>)
    requires PagesSuit(pageSize, pairMax, keyMax) && NoneGrows(ops)
    requires forall i :: 0 <= i < |ops| ==> SmallPair(ops[i], pairMax, keyMax)
    ensures var r := InsertAll(pageSize, Leaf([], pageSize), ops);
            && r.Some? && TreeOk(r.value) && Roomy(pageSize, pairMax, keyMax, r.value)
            && Pairs(r.value) == UpsertAll([], ops)
  {
    if ops == [] {
      RowsSuffice(32, pairMax, Rows(32, pairMax));
      assert Ordered(Leaf([], pageSize), 0, [], None);
    } else {
      var front, last := ops[..|ops| - 1], ops[|ops| - 1];
      WorkloadFits(pageSize, pairMax, keyMax, front);
      var u := InsertAll(pageSize, Leaf([], pageSize), front).value;
      OlderNotSmaller(u, ops);
      InsertHasRoom(pageSize, pairMax, keyMax, u, last.key, last.value);
      InsertRefinesUpdate(pageSize, u, last.key, last.value);
    }
  }

  lemma {:induction false} OlderNotSmaller(u: Tree, ops: seq<Pair>)
    requires ops != [] && NoneGrows(ops) && TreeOk(u) && Pairs(u) == UpsertAll([], ops[..|ops| - 1])
    ensures NotGrowing(Get(u, ops[|ops| - 1].key), ops[|ops| - 1].value)
  {
    var front, last := ops[..|ops| - 1], ops[|ops| - 1];
    var depth: nat :| Ordered(u, depth, [], None);
    GetIsLookup(u, depth, [], None, last.key);
    UpsertAllFrom(front);
    if Get(u, last.key).Some? {
      var es := UpsertAll([], front);
      var p := es[LowerBound(es, last.key)];
      assert p in es && p.key == last.key;
      var i :| 0 <= i < |front| && front[i] == p;
      assert ops[i] == p;
    }
  }

  // ----- Insertions that fail -----

  function Zeros(n: nat): (r: Bytes)
    ensures |r| == n
  {
    seq(n, i => 0)
  }

  /** A leaf of pairs that were inserted one after the other, in the order of their keys. */
  lemma {:induction false} AppendFits(pageSize: nat, es: seq<Pair>, p: Pair)
    requires LeafBuilds(pageSize, es + [p]) && forall i :: 0 <= i < |es| ==> Less(es[i].key, p.key)
    ensures LeafBuilds(pageSize, es)
    ensures Insert(pageSize, BuildLeaf(pageSize, es), p.key, p.value) == Some(BuildLeaf(pageSize, es + [p]))
  {
    TotalSizeConcat(es, [p]);
    TotalSizeOne(p);
    LowerBoundIs(es, p.key, |es|);
    assert Upsert(es, p.key, p.value) == es + [p];
  }

  /** Splitting by count alone can fail: of four pairs that are inserted in order, three fit on one page and the
      fourth on another, but the program splits them two and two. */
  lemma {:induction false} CountSplitCanOverflow(big: Value, bigger: Value)
    requires |big| == 2000 && |bigger| == 3000
    ensures var es := [Pair([1], []), Pair([2], []), Pair([3], big)];
            && LeafBuilds(4096, es) && LeafBuilds(4096, [Pair([4], bigger)])
            && InsertAll(4096, Leaf([], 4096), es) == Some(BuildLeaf(4096, es))
            && Insert(4096, BuildLeaf(4096, es), [4], bigger) == None
  {
    var a, b, c, d := Pair([1], []), Pair([2], []), Pair([3], big), Pair([4], bigger);
    var es := [a, b, c];
    ThreeInOrder(a, b, c);
    LowerBoundIs(es, [4], 3);
    var us := Upsert(es, [4], bigger);
    assert us == [a, b, c, d] && us[2..] == [c, d];
    TotalSizeOne(d);
    TotalSizeTwo(c, d);
  }

  lemma {:induction false} ThreeFit(a: Pair, b: Pair, c: Pair)
    requires 120 + PairSize(a) + PairSize(b) + PairSize(c) <= 4096
    ensures TotalSize([a, b, c]) == PairSize(a) + PairSize(b) + PairSize(c)
    ensures LeafBuilds(4096, [a]) && LeafBuilds(4096, [a, b]) && LeafBuilds(4096, [a, b, c])
  {
    assert [a, b] + [c] == [a, b, c];
    TotalSizeOne(a);
    TotalSizeTwo(a, b);
    TotalSizeConcat([a, b], [c]);
    TotalSizeOne(c);
  }

  lemma {:induction false} ThreeInOrder(a: Pair, b: Pair, c: Pair)
    requires Less(a.key, b.key) && Less(b.key, c.key) && Less(a.key, c.key)
    requires 120 + PairSize(a) + PairSize(b) + PairSize(c) <= 4096
    ensures TotalSize([a, b, c]) == PairSize(a) + PairSize(b) + PairSize(c) && LeafBuilds(4096, [a, b, c])
    ensures InsertAll(4096, Leaf([], 4096), [a, b, c]) == Some(BuildLeaf(4096, [a, b, c]))
  {
    ThreeFit(a, b, c);
    assert [] + [a] == [a] && [a] + [b] == [a, b] && [a, b] + [c] == [a, b, c];
    OneMore([], a);
    OneMore([a], b);
    OneMore([a, b], c);
  }

  lemma {:induction false} OneMore(es: seq<Pair>, p: Pair)
    requires LeafBuilds(4096, es + [p]) && forall i :: 0 <= i < |es| ==> Less(es[i].key, p.key)
    requires es != [] ==> LeafBuilds(4096, es) && InsertAll(4096, Leaf([], 4096), es) == Some(BuildLeaf(4096, es))
    ensures InsertAll(4096, Leaf([], 4096), es + [p]) == Some(BuildLeaf(4096, es + [p]))
  {
    assert es == [] ==>
             InsertAll(4096, Leaf([], 4096), es) == Some(Leaf([], 4096)) && BuildLeaf(4096, es) == Leaf([], 4096);
    AppendFits(4096, es, p);
    InsertAllOn(4096, Leaf([], 4096), es, p);
  }

  lemma {:induction false} InsertAllOn(pageSize: nat, t: Tree, ops: seq<Pair>, p: Pair)
    requires InsertAll(pageSize, t, ops).Some?
    ensures InsertAll(pageSize, t, ops + [p]) == Insert(pageSize, InsertAll(pageSize, t, ops).value, p.key, p.value)
  {
    assert (ops + [p])[..|ops|] == ops;
  }

  /** One key, set again and again to a value that is one byte longer. */
  function Growing(k: Key, n: nat): (ops: seq<Pair>)
    ensures |ops| == n && forall i :: 0 <= i < n ==> ops[i] == Pair(k, Zeros(i))
  {
    seq(n, i requires 0 <= i < n => Pair(k, Zeros(i)))
  }

  function Triangle(n: nat): nat {
    if n == 0 then 0 else Triangle(n - 1) + n
  }

  lemma {:induction false} TriangleIs(n: nat)
    ensures 2 * Triangle(n) == n * (n + 1)
  {
    if n > 0 {
      TriangleIs(n - 1);
      assert n * (n + 1) == (n - 1) * n + 2 * n;
    }
  }

  lemma {:induction false} TriangleGrows(n: nat, m: nat)
    requires n <= m
    ensures Triangle(n) <= Triangle(m)
    decreases m
  {
    if n < m {
      TriangleGrows(n, m - 1);
    }
  }

  lemma {:induction false} TriangleBounds(n: nat)
    requires n <= 89
    ensures Triangle(n) <= Triangle(89) == 4005
    ensures n <= 88 ==> Triangle(n) <= 3916
  {
    TriangleIs(89);
    TriangleIs(88);
    TriangleGrows(n, 89);
    if n <= 88 {
      TriangleGrows(n, 88);
    }
  }

  lemma {:induction false} GrowingOn(k: Key, n: nat)
    ensures Growing(k, n + 1) == Growing(k, n) + [Pair(k, Zeros(n))]
  {
  }

  /** Each of these insertions leaves the region of the one before it behind as dead space. */
  lemma {:induction false} GrowingLeavesDeadSpace(k: Key, n: nat)
    requires |k| == 1 && 1 <= n <= 89
    ensures Triangle(n) <= Triangle(89) == 4005
    ensures InsertAll(4096, Leaf([], 4096), Growing(k, n)) == Some(Leaf([Pair(k, Zeros(n - 1))], 4096 - Triangle(n)))
  {
    TriangleBounds(n);
    if n == 1 {
      GrowFirst(k);
      GrowingStep(k, 0, Leaf([], 4096));
    } else {
      GrowingLeavesDeadSpace(k, n - 1);
      GrowingNext(k, n);
    }
  }

  lemma {:induction false} GrowingNext(k: Key, n: nat)
    requires |k| == 1 && 2 <= n <= 89 && Triangle(n - 1) <= 4005
    requires InsertAll(4096, Leaf([], 4096), Growing(k, n - 1))
          == Some(Leaf([Pair(k, Zeros(n - 2))], 4096 - Triangle(n - 1)))
    ensures Triangle(n) <= 4005
    ensures InsertAll(4096, Leaf([], 4096), Growing(k, n)) == Some(Leaf([Pair(k, Zeros(n - 1))], 4096 - Triangle(n)))
  {
    TriangleBounds(n);
    TriangleBounds(n - 1);
    var end := 4096 - Triangle(n - 1);
    GrowOnce(k, Zeros(n - 2), Zeros(n - 1), end);
    GrowingStep(k, n - 1, Leaf([Pair(k, Zeros(n - 2))], end));
  }

  lemma {:induction false} GrowingStep(k: Key, n: nat, t: Tree)
    requires InsertAll(4096, Leaf([], 4096), Growing(k, n)) == Some(t)
    ensures InsertAll(4096, Leaf([], 4096), Growing(k, n + 1)) == Insert(4096, t, k, Zeros(n))
  {
    GrowingOn(k, n);
    InsertAllOn(4096, Leaf([], 4096), Growing(k, n), Pair(k, Zeros(n)));
  }

  lemma {:induction false} GrowFirst(k: Key)
    requires |k| == 1
    ensures Triangle(1) == 1 && InsertAll(4096, Leaf([], 4096), Growing(k, 0)) == Some(Leaf([], 4096))
    ensures Insert(4096, Leaf([], 4096), k, Zeros(0)) == Some(Leaf([Pair(k, Zeros(0))], 4095))
  {
    assert Upsert([], k, Zeros(0)) == [Pair(k, Zeros(0))];
  }

  lemma {:induction false} GrowOnce(k: Key, w: Value, v: Value, end: nat)
    requires |w| < |v| && 88 + |k| + |v| <= end
    ensures Insert(4096, Leaf([Pair(k, w)], end), k, v) == Some(Leaf([Pair(k, v)], end - |k| - |v|))
  {
    LessIrreflexive(k);
    LowerBoundIs([Pair(k, w)], k, 0);
    assert Upsert([Pair(k, w)], k, v) == [Pair(k, v)];
  }

  /** The condition on growth is needed: a single key that grows byte by byte fills a page with dead space, and
      then cannot be updated, although 4096 bytes suit pairs of up to 90 bytes. */
  lemma {:induction false} UpdateCanOverflow(k: Key)
    requires |k| == 1
    ensures PagesSuit(4096, 90, 1) && forall i :: 0 <= i < 90 ==> SmallPair(Growing(k, 90)[i], 90, 1)
    ensures InsertAll(4096, Leaf([], 4096), Growing(k, 89)).Some?
    ensures InsertAll(4096, Leaf([], 4096), Growing(k, 90)) == None
  {
    assert Rows(32, 90) == 8 && Rows(40, 1) == 4;
    GrowingLeavesDeadSpace(k, 89);
    GrowingStep(k, 89, Leaf([Pair(k, Zeros(88))], 91));
    SinglePairUpdateFailsIff(4096, k, Zeros(88), 91, Zeros(89));
  }
}
