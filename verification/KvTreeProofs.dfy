/** Insertion refines updating a sorted list, and keeps the tree a balanced search tree. */
module KvTreeProofs {
  import opened Collections
  import opened Sequences
  import opened KvKeys
  import opened KvTree

  // ----- Concatenation -----

  lemma {:induction false} PairsOfConcat(a: seq<Kid>, b: seq<Kid>)
    ensures PairsOf(a + b) == PairsOf(a) + PairsOf(b)
    decreases |b|
  {
    if b == [] {
      ConcatEmpty(a);
      ConcatEmpty(PairsOf(a));
    } else {
      var front, last := b[..|b| - 1], Pairs(b[|b| - 1].tree);
      ConcatFront(a, b);
      PairsOfConcat(a, front);
      ConcatAssoc(PairsOf(a), PairsOf(front), last);
    }
  }

  lemma PairsOfOne(kid: Kid)
    ensures PairsOf([kid]) == Pairs(kid.tree)
  {
    FrontOfOne(kid);
    ConcatEmpty(Pairs(kid.tree));
  }

  lemma PairsOfThree(a: seq<Kid>, kid: Kid, b: seq<Kid>)
    ensures PairsOf(a + [kid] + b) == PairsOf(a) + Pairs(kid.tree) + PairsOf(b)
  {
    PairsOfConcat(a + [kid], b);
    PairsOfConcat(a, [kid]);
    PairsOfOne(kid);
  }

  /** The pairs before, in and after the child at `i`. */
  lemma PairsAround(kids: seq<Kid>, i: nat)
    requires i < |kids|
    ensures PairsOf(kids) == PairsOf(kids[..i]) + Pairs(kids[i].tree) + PairsOf(kids[i + 1..])
  {
    SplitAround(kids, i);
    PairsOfThree(kids[..i], kids[i], kids[i + 1..]);
  }

  // ----- Parts of an ordered branch -----

  lemma FrontOrdered(kids: seq<Kid>, depth: nat, lo: Key, hi: Option<Key>, j: nat)
    requires Ordered(Branch(kids), depth, lo, hi) && 0 < j < |kids|
    ensures Ordered(Branch(kids[..j]), depth, lo, Some(kids[j].key))
  {
    var front := kids[..j];
    forall i | 0 <= i < |front|
      ensures KidOrdered(front, i, depth, lo, Some(kids[j].key))
    {
      assert KidOrdered(kids, i, depth, lo, hi);
    }
  }

  lemma BackOrdered(kids: seq<Kid>, depth: nat, lo: Key, hi: Option<Key>, j: nat)
    requires Ordered(Branch(kids), depth, lo, hi) && 0 < j < |kids|
    ensures Ordered(Branch(kids[j..]), depth, kids[j].key, hi)
  {
    var back := kids[j..];
    forall i | 0 <= i < |back|
      ensures KidOrdered(back, i, depth, kids[j].key, hi)
    {
      assert KidOrdered(kids, j + i, depth, lo, hi);
    }
    forall i | 1 <= i < |back|
      ensures Less(kids[j].key, back[i].key) && KeyIn(back[i].key, kids[j].key, hi)
    {
      assert back[i] == kids[j + i];
    }
  }

  lemma FirstKeyIrrelevant(kids: seq<Kid>, depth: nat, lo: Key, hi: Option<Key>)
    requires Ordered(Branch(kids), depth, lo, hi)
    ensures Ordered(Branch(DropFirstKey(kids)), depth, lo, hi)
    ensures PairsOf(DropFirstKey(kids)) == PairsOf(kids)
  {
    var dropped := DropFirstKey(kids);
    forall i | 0 <= i < |dropped|
      ensures KidOrdered(dropped, i, depth, lo, hi)
    {
      assert KidOrdered(kids, i, depth, lo, hi);
    }
    PairsAround(kids, 0);
    PairsAround(dropped, 0);
    assert dropped[..0] == kids[..0] && dropped[1..] == kids[1..];
  }

  // ----- Contents are sorted and in range -----

  lemma {:induction false} PairsOrdered(t: Tree, depth: nat, lo: Key, hi: Option<Key>)
    requires Ordered(t, depth, lo, hi)
    ensures Sorted(Pairs(t)) && InRange(Pairs(t), lo, hi)
    decreases t, 1
  {
    match t
    case Leaf(_, _) =>
    case Branch(kids) => PairsOfOrdered(kids, depth, lo, hi);
  }

  lemma {:induction false} PairsOfOrdered(kids: seq<Kid>, depth: nat, lo: Key, hi: Option<Key>)
    requires Ordered(Branch(kids), depth, lo, hi)
    ensures Sorted(PairsOf(kids)) && InRange(PairsOf(kids), lo, hi)
    decreases kids, 0
  {
    var j := |kids| - 1;
    var last := kids[j].tree;
    assert KidOrdered(kids, j, depth, lo, hi);
    PairsOrdered(last, depth - 1, LowOf(kids, j, lo), HighOf(kids, j, hi));
    if j == 0 {
      assert kids[..0] == [];
      assert PairsOf(kids) == Pairs(last);
    } else {
      FrontOrdered(kids, depth, lo, hi, j);
      PairsOfOrdered(kids[..j], depth, lo, Some(kids[j].key));
      RangesJoin(PairsOf(kids[..j]), Pairs(last), lo, kids[j].key, hi);
    }
  }

  /** Sorted lists on both sides of a key join into a sorted list. */
  lemma RangesJoin(a: seq<Pair>, b: seq<Pair>, lo: Key, mid: Key, hi: Option<Key>)
    requires Sorted(a) && InRange(a, lo, Some(mid)) && Sorted(b) && InRange(b, mid, hi)
    requires KeyIn(mid, lo, hi)
    ensures Sorted(a + b) && InRange(a + b, lo, hi)
  {
    OrderLaws();
  }

  // ----- The child that belongs to a key -----

  lemma ChildRange(kids: seq<Kid>, depth: nat, lo: Key, hi: Option<Key>, k: Key)
    requires Ordered(Branch(kids), depth, lo, hi) && KeyIn(k, lo, hi)
    ensures var i := ChildIndex(kids, k);
            && KeyIn(k, LowOf(kids, i, lo), HighOf(kids, i, hi))
            && depth > 0 && KidOrdered(kids, i, depth, lo, hi)
  {
    OrderLaws();
    assert KidOrdered(kids, ChildIndex(kids, k), depth, lo, hi);
  }

  /** Everything left of that child is smaller than the key and everything right of it is larger. */
  lemma AroundChild(kids: seq<Kid>, depth: nat, lo: Key, hi: Option<Key>, k: Key)
    requires Ordered(Branch(kids), depth, lo, hi) && KeyIn(k, lo, hi)
    ensures var i := ChildIndex(kids, k);
            AllBelow(PairsOf(kids[..i]), k) && AllAbove(PairsOf(kids[i + 1..]), k)
  {
    BelowChild(kids, depth, lo, hi, k);
    AboveChild(kids, depth, lo, hi, k);
  }

  lemma BelowChild(kids: seq<Kid>, depth: nat, lo: Key, hi: Option<Key>, k: Key)
    requires Ordered(Branch(kids), depth, lo, hi)
    ensures AllBelow(PairsOf(kids[..ChildIndex(kids, k)]), k)
  {
    var i := ChildIndex(kids, k);
    if i > 0 {
      FrontOrdered(kids, depth, lo, hi, i);
      PairsOfOrdered(kids[..i], depth, lo, Some(kids[i].key));
      RangeBelow(PairsOf(kids[..i]), lo, kids[i].key, k);
    }
  }

  lemma AboveChild(kids: seq<Kid>, depth: nat, lo: Key, hi: Option<Key>, k: Key)
    requires Ordered(Branch(kids), depth, lo, hi)
    ensures AllAbove(PairsOf(kids[ChildIndex(kids, k) + 1..]), k)
  {
    var i := ChildIndex(kids, k);
    if i + 1 < |kids| {
      LessTotal(kids[i + 1].key, k);
      BackOrdered(kids, depth, lo, hi, i + 1);
      PairsOfOrdered(kids[i + 1..], depth, kids[i + 1].key, hi);
      RangeAbove(PairsOf(kids[i + 1..]), kids[i + 1].key, hi, k);
    }
  }

  lemma RangeBelow(es: seq<Pair>, lo: Key, mid: Key, k: Key)
    requires InRange(es, lo, Some(mid)) && LessEq(mid, k)
    ensures AllBelow(es, k)
  {
    OrderLaws();
  }

  lemma RangeAbove(es: seq<Pair>, mid: Key, hi: Option<Key>, k: Key)
    requires InRange(es, mid, hi) && Less(k, mid)
    ensures AllAbove(es, k)
  {
    OrderLaws();
  }

  /** Looking up in the tree is looking up in its list of pairs. */
  lemma {:induction false} GetIsLookup(t: Tree, depth: nat, lo: Key, hi: Option<Key>, k: Key)
    requires Ordered(t, depth, lo, hi) && KeyIn(k, lo, hi)
    ensures Get(t, k) == Lookup(Pairs(t), k)
    decreases t
  {
    match t
    case Leaf(_, _) =>
    case Branch(kids) =>
      var i := ChildIndex(kids, k);
      ChildRange(kids, depth, lo, hi, k);
      GetIsLookup(kids[i].tree, depth - 1, LowOf(kids, i, lo), HighOf(kids, i, hi), k);
      AroundChild(kids, depth, lo, hi, k);
      PairsAround(kids, i);
      UpsertConcat(PairsOf(kids[..i]), Pairs(kids[i].tree), PairsOf(kids[i + 1..]), k, []);
  }

  // ----- Insertion -----

  /** What an insertion below a node must have achieved. */
  ghost predicate Achieved(out: Outcome, before: seq<Pair>, depth: nat, lo: Key, hi: Option<Key>, k: Key, v: Value) {
    match out
    case Overflow => true
    case Kept(t) => Ordered(t, depth, lo, hi) && Pairs(t) == Upsert(before, k, v)
    case Split(l, sep, r) =>
      && Less(lo, sep) && KeyIn(sep, lo, hi)
      && Ordered(l, depth, lo, Some(sep)) && Ordered(r, depth, sep, hi)
      && Pairs(l) + Pairs(r) == Upsert(before, k, v)
  }

  lemma SplitLeafAchieves(pageSize: nat, es: seq<Pair>, lo: Key, hi: Option<Key>, k: Key, v: Value)
    requires Sorted(es) && InRange(es, lo, hi) && KeyIn(k, lo, hi)
    ensures Achieved(SplitLeaf(pageSize, Upsert(es, k, v)), es, 0, lo, hi, k, v)
  {
    var us := Upsert(es, k, v);
    UpsertSorted(es, k, v);
    OrderLaws();
    assert InRange(us, lo, hi);
    if |us| >= 2 {
      var mid := |us| / 2;
      assert us == us[..mid] + us[mid..];
      assert Less(us[0].key, us[mid].key);
      HalvesOrdered(us, mid, lo, hi);
    }
  }

  lemma HalvesOrdered(es: seq<Pair>, mid: nat, lo: Key, hi: Option<Key>)
    requires Sorted(es) && InRange(es, lo, hi) && 0 < mid < |es|
    ensures Sorted(es[..mid]) && InRange(es[..mid], lo, Some(es[mid].key))
    ensures Sorted(es[mid..]) && InRange(es[mid..], es[mid].key, hi)
  {
  }

  lemma LeafPutAchieves(t: Tree, lo: Key, hi: Option<Key>, k: Key, v: Value)
    requires t.Leaf? && Ordered(t, 0, lo, hi) && KeyIn(k, lo, hi) && LeafFits(t, k, v)
    ensures Achieved(Kept(LeafPut(t, k, v)), t.entries, 0, lo, hi, k, v)
  {
    UpsertSorted(t.entries, k, v);
  }

  /** Replacing a child by one for the same range keeps the branch ordered. */
  lemma ReplaceOrdered(kids: seq<Kid>, depth: nat, lo: Key, hi: Option<Key>, i: nat, t: Tree)
    requires Ordered(Branch(kids), depth, lo, hi) && i < |kids|
    requires Ordered(t, depth - 1, LowOf(kids, i, lo), HighOf(kids, i, hi))
    ensures Ordered(Branch(kids[i := Kid(kids[i].key, t)]), depth, lo, hi)
  {
    var new_ := kids[i := Kid(kids[i].key, t)];
    forall j | 0 <= j < |new_|
      ensures KidOrdered(new_, j, depth, lo, hi)
    {
      assert KidOrdered(kids, j, depth, lo, hi);
    }
  }

  /** A child's split separator lies strictly between its neighbours, so it is added next to the child
      and never meets an equal separator. */
  lemma AddKidPosition(kids: seq<Kid>, lo: Key, hi: Option<Key>, i: nat, sep: Key, r: Tree)
    requires SeparatorsOk(kids, lo, hi) && i < |kids|
    requires Less(LowOf(kids, i, lo), sep) && KeyIn(sep, LowOf(kids, i, lo), HighOf(kids, i, hi))
    ensures AddKid(kids, Kid(sep, r)) == kids[..i + 1] + [Kid(sep, r)] + kids[i + 1..]
  {
    SeparatorPosition(kids, lo, hi, i, sep);
    if i + 1 < |kids| {
      LessIrreflexive(sep);
    }
  }

  lemma SeparatorPosition(kids: seq<Kid>, lo: Key, hi: Option<Key>, i: nat, sep: Key)
    requires SeparatorsOk(kids, lo, hi) && i < |kids|
    requires Less(LowOf(kids, i, lo), sep) && KeyIn(sep, LowOf(kids, i, lo), HighOf(kids, i, hi))
    ensures SeparatorBound(kids, sep) == i + 1
  {
    var b := SeparatorBound(kids, sep);
    assert i > 0 ==> Less(kids[i].key, sep);
    assert i + 1 < |kids| ==> Less(sep, kids[i + 1].key);
    if i + 1 < b {
      assert LessEq(kids[i + 1].key, kids[b - 1].key);
      NotBelow(kids[b - 1].key, sep, kids[i + 1].key);
    }
  }

  lemma NotBelow(last: Key, sep: Key, next: Key)
    requires Less(last, sep) && Less(sep, next)
    ensures !LessEq(next, last)
  {
    LessTrans(last, sep, next);
    LessIrreflexive(next);
    if Less(next, last) {
      LessTrans(next, last, next);
    }
  }

  lemma SplitChildOrdered(kids: seq<Kid>, depth: nat, lo: Key, hi: Option<Key>, i: nat, l: Tree, sep: Key, r: Tree)
    requires Ordered(Branch(kids), depth, lo, hi) && i < |kids|
    requires Less(LowOf(kids, i, lo), sep) && KeyIn(sep, LowOf(kids, i, lo), HighOf(kids, i, hi))
    requires Ordered(l, depth - 1, LowOf(kids, i, lo), Some(sep)) && Ordered(r, depth - 1, sep, HighOf(kids, i, hi))
    ensures var more := kids[..i] + [Kid(kids[i].key, l), Kid(sep, r)] + kids[i + 1..];
            Ordered(Branch(more), depth, lo, hi)
  {
    OrderLaws();
    var more := kids[..i] + [Kid(kids[i].key, l), Kid(sep, r)] + kids[i + 1..];
    forall j | 0 <= j < |more|
      ensures KidOrdered(more, j, depth, lo, hi)
    {
      if j < i {
        assert more[j] == kids[j];
        assert KidOrdered(kids, j, depth, lo, hi);
      } else if j > i + 1 {
        assert more[j] == kids[j - 1];
        assert KidOrdered(kids, j - 1, depth, lo, hi);
      }
    }
    SplitSeparators(kids, lo, hi, i, l, sep, r);
  }

  lemma SplitSeparators(kids: seq<Kid>, lo: Key, hi: Option<Key>, i: nat, l: Tree, sep: Key, r: Tree)
    requires SeparatorsOk(kids, lo, hi) && i < |kids|
    requires Less(LowOf(kids, i, lo), sep) && KeyIn(sep, LowOf(kids, i, lo), HighOf(kids, i, hi))
    ensures SeparatorsOk(kids[..i] + [Kid(kids[i].key, l), Kid(sep, r)] + kids[i + 1..], lo, hi)
  {
    OrderLaws();
    var more := kids[..i] + [Kid(kids[i].key, l), Kid(sep, r)] + kids[i + 1..];
    assert forall j :: 0 <= j <= i ==> more[j].key == kids[j].key;
    assert forall j :: i + 2 <= j < |more| ==> more[j].key == kids[j - 1].key;
    if i > 0 {
      assert Less(lo, kids[i].key) && Less(kids[i].key, sep);
    }
    assert Less(lo, sep) && KeyIn(sep, lo, hi);
    forall a, b | 1 <= a < b < |more|
      ensures Less(more[a].key, more[b].key)
    {
      if a == i + 1 {
        assert Less(sep, kids[i + 1].key);
        assert b - 1 == i + 1 || Less(kids[i + 1].key, kids[b - 1].key);
      } else if b == i + 1 {
        assert a == i || Less(kids[a].key, kids[i].key);
      }
    }
  }

  lemma SplitBranchAchieves(pageSize: nat, kids: seq<Kid>, before: seq<Pair>, depth: nat, lo: Key, hi: Option<Key>,
                            k: Key, v: Value)
    requires Ordered(Branch(kids), depth, lo, hi) && PairsOf(kids) == Upsert(before, k, v)
    ensures Achieved(SplitBranch(pageSize, kids), before, depth, lo, hi, k, v)
  {
    if |kids| >= 2 {
      HalvesOfBranch(kids, depth, lo, hi, |kids| / 2);
    }
  }

  lemma HalvesOfBranch(kids: seq<Kid>, depth: nat, lo: Key, hi: Option<Key>, mid: nat)
    requires Ordered(Branch(kids), depth, lo, hi) && 0 < mid < |kids|
    ensures var l, r := DropFirstKey(kids[..mid]), DropFirstKey(kids[mid..]);
            && Ordered(Branch(l), depth, lo, Some(kids[mid].key)) && Ordered(Branch(r), depth, kids[mid].key, hi)
            && PairsOf(l) + PairsOf(r) == PairsOf(kids)
  {
    FrontOrdered(kids, depth, lo, hi, mid);
    BackOrdered(kids, depth, lo, hi, mid);
    FirstKeyIrrelevant(kids[..mid], depth, lo, Some(kids[mid].key));
    FirstKeyIrrelevant(kids[mid..], depth, kids[mid].key, hi);
    PairsOfConcat(kids[..mid], kids[mid..]);
    assert kids == kids[..mid] + kids[mid..];
  }

  lemma AbsorbAchieves(pageSize: nat, kids: seq<Kid>, child: Outcome, depth: nat, lo: Key, hi: Option<Key>, k: Key,
                       v: Value)
    requires Ordered(Branch(kids), depth, lo, hi) && KeyIn(k, lo, hi)
    requires var i := ChildIndex(kids, k);
             Achieved(child, Pairs(kids[i].tree), depth - 1, LowOf(kids, i, lo), HighOf(kids, i, hi), k, v)
    ensures Achieved(Absorb(pageSize, kids, ChildIndex(kids, k), child), PairsOf(kids), depth, lo, hi, k, v)
  {
    var i := ChildIndex(kids, k);
    AroundChild(kids, depth, lo, hi, k);
    PairsAround(kids, i);
    UpsertConcat(PairsOf(kids[..i]), Pairs(kids[i].tree), PairsOf(kids[i + 1..]), k, v);
    match child
    case Overflow =>
    case Kept(t) =>
      var kept := kids[i := Kid(kids[i].key, t)];
      ReplaceOrdered(kids, depth, lo, hi, i, t);
      PairsAround(kept, i);
      assert kept[..i] == kids[..i] && kept[i + 1..] == kids[i + 1..];
    case Split(l, sep, r) =>
      AbsorbSplit(pageSize, kids, depth, lo, hi, i, l, sep, r, k, v);
  }

  lemma AbsorbSplit(pageSize: nat, kids: seq<Kid>, depth: nat, lo: Key, hi: Option<Key>, i: nat,
                    l: Tree, sep: Key, r: Tree, k: Key, v: Value)
    requires Ordered(Branch(kids), depth, lo, hi) && i < |kids|
    requires Less(LowOf(kids, i, lo), sep) && KeyIn(sep, LowOf(kids, i, lo), HighOf(kids, i, hi))
    requires Ordered(l, depth - 1, LowOf(kids, i, lo), Some(sep)) && Ordered(r, depth - 1, sep, HighOf(kids, i, hi))
    requires PairsOf(kids[..i]) + (Pairs(l) + Pairs(r)) + PairsOf(kids[i + 1..]) == Upsert(PairsOf(kids), k, v)
    ensures Achieved(Absorb(pageSize, kids, i, Split(l, sep, r)), PairsOf(kids), depth, lo, hi, k, v)
  {
    var replaced := kids[i := Kid(kids[i].key, l)];
    var more := kids[..i] + [Kid(kids[i].key, l), Kid(sep, r)] + kids[i + 1..];
    SplitChildOrdered(kids, depth, lo, hi, i, l, sep, r);
    ReplacedAndAdded(kids, lo, hi, i, l, sep, r);
    MorePairs(kids, i, l, sep, r);
    SplitBranchAchieves(pageSize, more, PairsOf(kids), depth, lo, hi, k, v);
  }

  lemma ReplacedAndAdded(kids: seq<Kid>, lo: Key, hi: Option<Key>, i: nat, l: Tree, sep: Key, r: Tree)
    requires SeparatorsOk(kids, lo, hi) && i < |kids|
    requires Less(LowOf(kids, i, lo), sep) && KeyIn(sep, LowOf(kids, i, lo), HighOf(kids, i, hi))
    ensures AddKid(kids[i := Kid(kids[i].key, l)], Kid(sep, r))
         == kids[..i] + [Kid(kids[i].key, l), Kid(sep, r)] + kids[i + 1..]
  {
    var replaced := kids[i := Kid(kids[i].key, l)];
    AddKidPosition(replaced, lo, hi, i, sep, r);
    InsertAfterUpdate(kids, i, Kid(kids[i].key, l), Kid(sep, r));
  }

  lemma InsertAfterUpdate(kids: seq<Kid>, i: nat, a: Kid, b: Kid)
    requires i < |kids|
    ensures kids[i := a][..i + 1] + [b] + kids[i := a][i + 1..] == kids[..i] + [a, b] + kids[i + 1..]
  {
    assert kids[i := a][..i + 1] == kids[..i] + [a];
    assert kids[i := a][i + 1..] == kids[i + 1..];
    assert [a] + [b] == [a, b];
  }

  lemma MorePairs(kids: seq<Kid>, i: nat, l: Tree, sep: Key, r: Tree)
    requires i < |kids|
    ensures PairsOf(kids[..i] + [Kid(kids[i].key, l), Kid(sep, r)] + kids[i + 1..])
         == PairsOf(kids[..i]) + (Pairs(l) + Pairs(r)) + PairsOf(kids[i + 1..])
  {
    var two := [Kid(kids[i].key, l), Kid(sep, r)];
    assert two == [Kid(kids[i].key, l)] + [Kid(sep, r)];
    PairsOfConcat([Kid(kids[i].key, l)], [Kid(sep, r)]);
    PairsOfOne(Kid(kids[i].key, l));
    PairsOfOne(Kid(sep, r));
    PairsOfConcat(kids[..i], two);
    PairsOfConcat(kids[..i] + two, kids[i + 1..]);
  }

  lemma {:induction false} InsertIntoAchieves(pageSize: nat, t: Tree, depth: nat, lo: Key, hi: Option<Key>, k: Key,
                                              v: Value)
    requires Ordered(t, depth, lo, hi) && KeyIn(k, lo, hi)
    ensures Achieved(InsertInto(pageSize, t, k, v), Pairs(t), depth, lo, hi, k, v)
    decreases t
  {
    match t
    case Leaf(es, _) =>
      if LeafFits(t, k, v) {
        LeafPutAchieves(t, lo, hi, k, v);
      } else {
        SplitLeafAchieves(pageSize, es, lo, hi, k, v);
      }
    case Branch(kids) =>
      var i := ChildIndex(kids, k);
      ChildRange(kids, depth, lo, hi, k);
      InsertIntoAchieves(pageSize, kids[i].tree, depth - 1, LowOf(kids, i, lo), HighOf(kids, i, hi), k, v);
      AbsorbAchieves(pageSize, kids, InsertInto(pageSize, kids[i].tree, k, v), depth, lo, hi, k, v);
  }

  /** A whole tree: balanced, and a search tree for all keys. */
  ghost predicate TreeOk(t: Tree) {
    exists depth: nat :: Ordered(t, depth, [], None)
  }

  /** Insertion refines map update: where it succeeds, the tree is again a balanced search tree, its pairs
      are the old pairs with the key set, and so every key answers as the updated map would. */
  lemma InsertRefinesUpdate(pageSize: nat, t: Tree, k: Key, v: Value)
    requires TreeOk(t) && Insert(pageSize, t, k, v).Some?
    ensures var u := Insert(pageSize, t, k, v).value;
            && TreeOk(u)
            && Pairs(u) == Upsert(Pairs(t), k, v)
            && forall q :: Get(u, q) == if q == k then Some(v) else Get(t, q)
  {
    var depth: nat :| Ordered(t, depth, [], None);
    var u := Insert(pageSize, t, k, v).value;
    InsertIntoAchieves(pageSize, t, depth, [], None, k, v);
    match InsertInto(pageSize, t, k, v) {
      case Kept(_) => assert Ordered(u, depth, [], None);
      case Split(l, sep, r) => NewRoot(l, sep, r, depth, Pairs(t), k, v);
    }
    PairsOrdered(t, depth, [], None);
    forall q
      ensures Get(u, q) == if q == k then Some(v) else Get(t, q)
    {
      LookupUpsert(Pairs(t), k, v, q);
      var d: nat :| Ordered(u, d, [], None);
      GetIsLookup(t, depth, [], None, q);
      GetIsLookup(u, d, [], None, q);
    }
  }

  lemma NewRoot(l: Tree, sep: Key, r: Tree, depth: nat, before: seq<Pair>, k: Key, v: Value)
    requires Achieved(Split(l, sep, r), before, depth, [], None, k, v)
    ensures var root := Branch([Kid([], l), Kid(sep, r)]);
            Ordered(root, depth + 1, [], None) && Pairs(root) == Upsert(before, k, v)
  {
    var kids := [Kid([], l), Kid(sep, r)];
    assert kids == [Kid([], l)] + [Kid(sep, r)];
    PairsOfConcat([Kid([], l)], [Kid(sep, r)]);
    PairsOfOne(Kid([], l));
    PairsOfOne(Kid(sep, r));
    assert KidOrdered(kids, 0, depth + 1, [], None) && KidOrdered(kids, 1, depth + 1, [], None);
  }
}
