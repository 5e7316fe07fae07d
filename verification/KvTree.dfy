/** The B+ tree as a value: what insertion does to the shape and the contents of a tree, page ids aside. */
module KvTree {
  import opened Collections
  import opened KvKeys

  const NODE_HEADER: nat := 24
  const LEAF_ENTRY: nat := 32

  /** Where a table of `n` rows ends. */
  function LeafTableEnd(n: nat): nat {
    24 + 32 * n
  }

  function BranchTableEnd(n: nat): nat {
    24 + 40 * n
  }

  /** A leaf knows its pairs and where its key-value data ends; the data may contain dead space that
      in-place updates left behind. The key of a branch's first kid is not used. */
  datatype Tree =
    | Leaf(entries: seq<Pair>, dataEnd: nat)
    | Branch(kids: seq<Kid>)

  datatype Kid = Kid(key: Key, tree: Tree)

  // ----- Leaf pages -----

  function PairSize(p: Pair): nat {
    |p.key| + |p.value|
  }

  function TotalSize(es: seq<Pair>): nat {
    if es == [] then 0 else TotalSize(es[..|es| - 1]) + PairSize(es[|es| - 1])
  }

  /** `LeafPageMutator::fits`. */
  predicate LeafFits(t: Tree, k: Key, v: Value)
    requires t.Leaf?
  {
    && |k| + |v| <= t.dataEnd
    && LeafTableEnd(|t.entries| + 1) <= t.dataEnd - |k| - |v|
  }

  /** `LeafPageMutator::insert`: an update reuses the old region if the new pair is not larger. */
  function LeafPut(t: Tree, k: Key, v: Value): Tree
    requires t.Leaf? && LeafFits(t, k, v)
  {
    var i := LowerBound(t.entries, k);
    var inPlace := i < |t.entries| && t.entries[i].key == k && PairSize(t.entries[i]) >= |k| + |v|;
    Leaf(Upsert(t.entries, k, v), if inPlace then t.dataEnd else t.dataEnd - |k| - |v|)
  }

  predicate LeafBuilds(pageSize: nat, es: seq<Pair>) {
    LeafTableEnd(|es|) + TotalSize(es) <= pageSize
  }

  function BuildLeaf(pageSize: nat, es: seq<Pair>): Tree
    requires LeafBuilds(pageSize, es)
  {
    Leaf(es, pageSize - TotalSize(es))
  }

  // ----- Branch pages -----

  function KeyBytes(kids: seq<Kid>): nat {
    if kids == [] then 0 else KeyBytes(kids[..|kids| - 1]) + |kids[|kids| - 1].key|
  }

  predicate BranchBuilds(pageSize: nat, kids: seq<Kid>) {
    BranchTableEnd(|kids|) + KeyBytes(kids) <= pageSize
  }

  /** `BranchPageMutator::fits`: branch pages never hold dead space. */
  predicate BranchFits(pageSize: nat, kids: seq<Kid>, k: Key) {
    BranchTableEnd(|kids| + 1) + KeyBytes(kids) + |k| <= pageSize
  }

  /** The child to follow: the number of separators at or below the key. */
  function ChildIndex(kids: seq<Kid>, k: Key): (r: nat)
    requires |kids| > 0
    ensures r < |kids|
    ensures r > 0 ==> LessEq(kids[r].key, k)
    ensures r + 1 < |kids| ==> !LessEq(kids[r + 1].key, k)
  {
    if |kids| == 1 || LessEq(kids[|kids| - 1].key, k) then |kids| - 1
    else ChildIndex(kids[..|kids| - 1], k)
  }

  /** Where a search among the separators for `k` ends. */
  function SeparatorBound(kids: seq<Kid>, k: Key): (r: nat)
    requires |kids| > 0
    ensures 1 <= r <= |kids|
    ensures r > 1 ==> Less(kids[r - 1].key, k)
    ensures forall i :: r <= i < |kids| ==> !Less(kids[i].key, k)
  {
    if |kids| == 1 then 1
    else if Less(kids[|kids| - 1].key, k) then |kids|
    else SeparatorBound(kids[..|kids| - 1], k)
  }

  /** `BranchBuilder::insert` and `BranchPageMutator::insert`: an equal separator has its child replaced. */
  function AddKid(kids: seq<Kid>, kid: Kid): seq<Kid>
    requires |kids| > 0
  {
    var i := SeparatorBound(kids, kid.key);
    if i < |kids| && kids[i].key == kid.key then kids[i := kid]
    else kids[..i] + [kid] + kids[i..]
  }

  /** The first key of a page is written as the empty key. */
  function DropFirstKey(kids: seq<Kid>): seq<Kid>
    requires |kids| > 0
  {
    kids[0 := Kid([], kids[0].tree)]
  }

  // ----- Insertion -----

  datatype Outcome =
    | Kept(tree: Tree)
    | Split(left: Tree, separator: Key, right: Tree)
    | Overflow // a half of a split does not fit into a page: the program does not support it

  function SplitLeaf(pageSize: nat, es: seq<Pair>): Outcome {
    var mid := |es| / 2;
    if |es| < 2 || !LeafBuilds(pageSize, es[..mid]) || !LeafBuilds(pageSize, es[mid..]) then Overflow
    else Split(BuildLeaf(pageSize, es[..mid]), es[mid].key, BuildLeaf(pageSize, es[mid..]))
  }

  function SplitBranch(pageSize: nat, kids: seq<Kid>): Outcome {
    var mid := |kids| / 2;
    if |kids| < 2 then Overflow
    else if !BranchBuilds(pageSize, DropFirstKey(kids[..mid])) || !BranchBuilds(pageSize, DropFirstKey(kids[mid..]))
    then Overflow
    else Split(Branch(DropFirstKey(kids[..mid])), kids[mid].key, Branch(DropFirstKey(kids[mid..])))
  }

  /** Put a child's replacement, and the new sibling if it split, into its parent. */
  function Absorb(pageSize: nat, kids: seq<Kid>, i: nat, child: Outcome): Outcome
    requires i < |kids|
  {
    match child
    case Overflow => Overflow
    case Kept(t) => Kept(Branch(kids[i := Kid(kids[i].key, t)]))
    case Split(l, sep, r) =>
      var replaced := kids[i := Kid(kids[i].key, l)];
      var more := AddKid(replaced, Kid(sep, r));
      if BranchFits(pageSize, replaced, sep) then Kept(Branch(more)) else SplitBranch(pageSize, more)
  }

  function InsertInto(pageSize: nat, t: Tree, k: Key, v: Value): Outcome {
    match t
    case Leaf(es, _) =>
      if LeafFits(t, k, v) then Kept(LeafPut(t, k, v)) else SplitLeaf(pageSize, Upsert(es, k, v))
    case Branch(kids) =>
      if kids == [] then Overflow
      else
        var i := ChildIndex(kids, k);
        Absorb(pageSize, kids, i, InsertInto(pageSize, kids[i].tree, k, v))
  }

  /** `Tree::insert`: the whole tree, growing a new root when the old one splits. */
  function Insert(pageSize: nat, root: Tree, k: Key, v: Value): Option<Tree> {
    match InsertInto(pageSize, root, k, v)
    case Kept(t) => Some(t)
    case Split(l, sep, r) =>
      var kids := [Kid([], l), Kid(sep, r)];
      if BranchBuilds(pageSize, kids) then Some(Branch(kids)) else None
    case Overflow => None
  }

  /** `Tree::get`. */
  function Get(t: Tree, k: Key): Option<Value> {
    match t
    case Leaf(es, _) => Lookup(es, k)
    case Branch(kids) => if kids == [] then None else Get(kids[ChildIndex(kids, k)].tree, k)
  }

  // ----- Meaning and order -----

  /** The pairs of a tree from left to right. */
  function Pairs(t: Tree): seq<Pair>
    decreases t, 1
  {
    match t
    case Leaf(es, _) => es
    case Branch(kids) => PairsOf(kids)
  }

  function PairsOf(kids: seq<Kid>): seq<Pair>
    decreases kids, 0
  {
    if kids == [] then [] else PairsOf(kids[..|kids| - 1]) + Pairs(kids[|kids| - 1].tree)
  }

  /** The range of keys that belongs to the child at `i`. */
  function LowOf(kids: seq<Kid>, i: nat, lo: Key): Key
    requires i < |kids|
  {
    if i == 0 then lo else kids[i].key
  }

  function HighOf(kids: seq<Kid>, i: nat, hi: Option<Key>): Option<Key>
    requires i < |kids|
  {
    if i + 1 < |kids| then Some(kids[i + 1].key) else hi
  }

  /** Separators strictly increase and lie strictly inside the branch's range. */
  ghost predicate SeparatorsOk(kids: seq<Kid>, lo: Key, hi: Option<Key>) {
    && (forall i, j :: 1 <= i < j < |kids| ==> Less(kids[i].key, kids[j].key))
    && (forall i :: 1 <= i < |kids| ==> Less(lo, kids[i].key) && KeyIn(kids[i].key, lo, hi))
  }

  /** A search tree for the keys from `lo` up to `hi` whose leaves are all `depth` levels down. */
  ghost predicate Ordered(t: Tree, depth: nat, lo: Key, hi: Option<Key>)
    decreases t, 1
  {
    match t
    case Leaf(es, _) => depth == 0 && Sorted(es) && InRange(es, lo, hi)
    case Branch(kids) =>
      && depth > 0 && |kids| > 0 && SeparatorsOk(kids, lo, hi)
      && forall i {:trigger KidOrdered(kids, i, depth, lo, hi)} :: 0 <= i < |kids| ==>
           KidOrdered(kids, i, depth, lo, hi)
  }

  ghost predicate KidOrdered(kids: seq<Kid>, i: nat, depth: nat, lo: Key, hi: Option<Key>)
    requires i < |kids| && depth > 0
    decreases kids, 0
  {
    Ordered(kids[i].tree, depth - 1, LowOf(kids, i, lo), HighOf(kids, i, hi))
  }
}
