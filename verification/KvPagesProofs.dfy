/** Copy-on-write insertion does on pages what insertion does on trees, never touches a page outside the
    transaction, and accounts for every page id. */
module KvPagesProofs {
  import opened KvKeys
  import opened KvTree
  import opened KvPages

  // ----- Insertion on pages is insertion on trees -----

  lemma {:induction false} EraseAllUpdate(cs: seq<Child>, i: nat, c: Child)
    requires i < |cs|
    ensures EraseAll(cs[i := c]) == EraseAll(cs)[i := Kid(c.key, Erase(c.sum.page))]
  {
  }

  lemma {:induction false} EraseAllInsert(cs: seq<Child>, i: nat, c: Child)
    requires i <= |cs|
    ensures EraseAll(cs[..i] + [c] + cs[i..]) == EraseAll(cs)[..i] + [Kid(c.key, Erase(c.sum.page))] + EraseAll(cs)[i..]
  {
    var added, kids := cs[..i] + [c] + cs[i..], EraseAll(cs);
    forall j | 0 <= j < |added|
      ensures EraseAll(added)[j] == (kids[..i] + [Kid(c.key, Erase(c.sum.page))] + kids[i..])[j]
    {
      assert added[j] == if j < i then cs[j] else if j == i then c else cs[j - 1];
    }
  }

  lemma {:induction false} EraseAllAdd(cs: seq<Child>, c: Child)
    requires |cs| > 0
    ensures EraseAll(AddChild(cs, c)) == AddKid(EraseAll(cs), Kid(c.key, Erase(c.sum.page)))
  {
    var i := SeparatorBound(EraseAll(cs), c.key);
    if i < |cs| && cs[i].key == c.key {
      EraseAllUpdate(cs, i, c);
    } else {
      EraseAllInsert(cs, i, c);
    }
  }

  lemma {:induction false} EraseHalf(cs: seq<Child>)
    requires |cs| > 0
    ensures EraseAll(DropFirstKeyOf(cs)) == DropFirstKey(EraseAll(cs))
  {
  }

  /** The outcome on trees that a result on pages stands for. */
  function OutcomeOf(r: PutResult): Outcome
    requires !r.Starved?
  {
    match r
    case Overflowed => Overflow
    case Done(_, _, sum, sibling) =>
      match sibling
      case None => Kept(Erase(sum.page))
      case Some(s) => Split(Erase(sum.page), s.key, Erase(s.sum.page))
  }

  lemma {:induction false} EraseHalves(cs: seq<Child>, mid: nat)
    requires 0 < mid < |cs|
    ensures EraseAll(DropFirstKeyOf(cs[..mid])) == DropFirstKey(EraseAll(cs)[..mid])
    ensures EraseAll(DropFirstKeyOf(cs[mid..])) == DropFirstKey(EraseAll(cs)[mid..])
  {
    EraseHalf(cs[..mid]);
    EraseHalf(cs[mid..]);
    assert EraseAll(cs[..mid]) == EraseAll(cs)[..mid];
    assert EraseAll(cs[mid..]) == EraseAll(cs)[mid..];
  }

  lemma {:induction false} SettledSplit(w: Work, id: PageId, left: Page, key: Key, right: Page)
    requires w.spare != []
    ensures OutcomeOf(SettleSplit(w, id, left, key, right)) == Split(Erase(left), key, Erase(right))
  {
  }

  lemma {:induction false} SplitChildrenRefines(pageSize: nat, w: Work, id: PageId, cs: seq<Child>)
    requires !SplitChildren(pageSize, w, id, cs).Starved?
    ensures OutcomeOf(SplitChildren(pageSize, w, id, cs)) == SplitBranch(pageSize, EraseAll(cs))
  {
    if !SplitBranch(pageSize, EraseAll(cs)).Overflow? {
      var mid := |cs| / 2;
      EraseHalves(cs, mid);
      SettledSplit(w, id, BranchPage(DropFirstKeyOf(cs[..mid])), cs[mid].key, BranchPage(DropFirstKeyOf(cs[mid..])));
    }
  }

  /** The parent's part when the child was split. */
  lemma {:induction false} PutSplitRefines(pageSize: nat, id: PageId, cs: seq<Child>, w: Work, c: Child)
    requires cs != []
    requires !(if BranchFits(pageSize, EraseAll(cs), c.key) then Settle(w, id, BranchPage(AddChild(cs, c)))
               else SplitChildren(pageSize, w, id, AddChild(cs, c))).Starved?
    ensures var r := if BranchFits(pageSize, EraseAll(cs), c.key) then Settle(w, id, BranchPage(AddChild(cs, c)))
                     else SplitChildren(pageSize, w, id, AddChild(cs, c));
            var more := AddKid(EraseAll(cs), Kid(c.key, Erase(c.sum.page)));
            OutcomeOf(r) == if BranchFits(pageSize, EraseAll(cs), c.key) then Kept(Branch(more))
                            else SplitBranch(pageSize, more)
  {
    EraseAllAdd(cs, c);
    if !BranchFits(pageSize, EraseAll(cs), c.key) {
      SplitChildrenRefines(pageSize, w, id, AddChild(cs, c));
    }
  }

  lemma {:induction false} PutBranchRefines(pageSize: nat, id: PageId, cs: seq<Child>, i: nat, child: PutResult)
    requires i < |cs| && !child.Starved? && !PutBranch(pageSize, id, cs, i, child).Starved?
    ensures OutcomeOf(PutBranch(pageSize, id, cs, i, child)) == Absorb(pageSize, EraseAll(cs), i, OutcomeOf(child))
  {
    if child.Done? {
      var c := Child(cs[i].key, child.id, child.sum);
      EraseAllUpdate(cs, i, c);
      if child.sibling.Some? {
        var s := child.sibling.value;
        PutSplitRefines(pageSize, id, cs[i := c], child.work, Child(s.key, s.id, s.sum));
      }
    }
  }

  ghost predicate Proper(p: Page)
    decreases p, 1
  {
    !p.JunkPage? && (p.BranchPage? ==> AllProper(p.children))
  }

  ghost predicate AllProper(cs: seq<Child>)
    decreases cs, 0
  {
    forall i :: 0 <= i < |cs| ==> Proper(cs[i].sum.page)
  }

  lemma {:induction false} PutRefines(pageSize: nat, w: Work, id: PageId, sum: Checksum, k: Key, v: Value)
    requires Proper(sum.page) && !Put(pageSize, w, id, sum, k, v).Starved?
    ensures OutcomeOf(Put(pageSize, w, id, sum, k, v)) == InsertInto(pageSize, Erase(sum.page), k, v)
    decreases sum
  {
    var w1, nid := Cow(w, id, sum.page), CowId(w, id);
    match sum.page
    case LeafPage(_, _) =>
    case BranchPage(cs) =>
      if cs != [] {
        var i := ChildIndex(EraseAll(cs), k);
        PutRefines(pageSize, w1, cs[i].page, cs[i].sum, k, v);
        PutBranchRefines(pageSize, nid, cs, i, Put(pageSize, w1, cs[i].page, cs[i].sum, k, v));
      }
  }
}
