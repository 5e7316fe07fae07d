/** The write transaction as an object: dirty pages that are checked out and returned, copy-on-write, the
    recursive insertion, and the commit. Every insertion is tied to `Put` on pages, with the ids that the
    allocator gave. The panics of the page tracker are preconditions here, so no insertion can reach one. */
module KvWriteTransaction {
  import opened Collections
  import opened Sequences
  import opened KvKeys
  import opened KvTree
  import opened KvTreeRoom
  import opened KvPages
  import opened KvLedger
  import opened KvAllocator
  import opened KvDb
  import opened KvDbInvariant
  import opened KvTransaction
  import opened KvPager

  datatype DirtySlot = Available(page: Page) | CheckedOut

  datatype Insertion = Inserted(id: PageId, sum: Checksum, split: Option<Sibling>) | Unsupported

  /** The transaction's pages. A page that is checked out counts with what it held when it was taken. */
  ghost function DirtyOf(slots: map<PageId, DirtySlot>, held: Store): Store {
    map x | x in slots :: if slots[x].Available? then slots[x].page else if x in held then held[x] else JunkPage(0)
  }

  ghost predicate HeldOk(slots: map<PageId, DirtySlot>, held: Store) {
    forall x :: x in held <==> x in slots && slots[x].CheckedOut?
  }

  /** Whatever ids follow those that were given, insertion on pages does the same. */
  ghost predicate Puts(pageSize: nat, dirty: Store, freed: seq<PageId>, given: seq<PageId>, id: PageId, sum: Checksum,
                       k: Key, v: Value, r: Insertion, dirty': Store, freed': seq<PageId>) {
    forall extra ::
      Put(pageSize, Work(dirty, freed, given + extra), id, sum, k, v) == ResultOf(r, dirty', freed', extra)
  }

  ghost function ResultOf(r: Insertion, dirty: Store, freed: seq<PageId>, extra: seq<PageId>): PutResult {
    match r
    case Inserted(i, s, split) => Done(Work(dirty, freed, extra), i, s, split)
    case Unsupported => Overflowed
  }

  class WriteTransaction {
    const pageSize: nat
    const tx: nat
    const io: PageIO
    const alloc: PageAllocator
    const state: CommitState
    var root: PageId
    var sum: Checksum
    var slots: map<PageId, DirtySlot>
    var freed: seq<PageId>
    var failed: bool
    ghost var held: Store

    constructor (pageSize: nat, io: PageIO, alloc: PageAllocator, state: CommitState)
      ensures tx == Active(state.header).tx + 1 && root == Active(state.header).root && sum == Active(state.header).sum
      ensures this.pageSize == pageSize && this.io == io && this.alloc == alloc && this.state == state
      ensures slots == map[] && freed == [] && !failed && held == map[]
    {
      this.pageSize, this.io, this.alloc, this.state := pageSize, io, alloc, state;
      var slot := Active(state.header);
      tx, root, sum := slot.tx + 1, slot.root, slot.sum;
      slots, freed, failed, held := map[], [], false, map[];
    }

    ghost predicate Ready()
      reads this, io, alloc
    {
      && HeldOk(slots, held) && io.Coherent() && AllocatorOk(alloc.State(), tx)
      && forall x :: x in slots ==> !alloc.Offers(x)
    }

    ghost function Dirty(): Store
      reads this
    {
      DirtyOf(slots, held)
    }

    /** The pages as the transaction sees them. */
    ghost function Pages(): Store
      reads this, io
    {
      io.file + Dirty()
    }

    // ----- Dirty pages -----

    method Add(id: PageId, page: Page)
      requires HeldOk(slots, held) && id !in slots
      modifies this`slots, this`held
      ensures HeldOk(slots, held) && slots == old(slots)[id := CheckedOut]
      ensures held == old(held)[id := page] && Dirty() == old(Dirty())[id := page]
    {
      slots := slots[id := CheckedOut];
      held := held[id := page];
    }

    method CheckOut(id: PageId) returns (page: Page)
      requires HeldOk(slots, held) && id in slots && slots[id].Available?
      modifies this`slots, this`held
      ensures HeldOk(slots, held) && slots == old(slots)[id := CheckedOut]
      ensures page == old(Dirty())[id] && held == old(held)[id := page] && Dirty() == old(Dirty())
    {
      page := slots[id].page;
      slots := slots[id := CheckedOut];
      held := held[id := page];
    }

    method ReturnPage(id: PageId, page: Page)
      requires HeldOk(slots, held) && id in slots && slots[id].CheckedOut?
      modifies this`slots, this`held
      ensures HeldOk(slots, held) && slots == old(slots)[id := Available(page)]
      ensures held == old(held) - {id} && Dirty() == old(Dirty())[id := page]
    {
      slots := slots[id := Available(page)];
      held := held - {id};
    }

    /** A new page, checked out. */
    method AllocatePage(content: Page) returns (id: PageId)
      requires Ready()
      modifies this`slots, this`held, alloc, io`cache
      ensures Ready() && old(alloc.Offers(id)) && id !in old(slots)
      ensures forall x :: alloc.Offers(x) <==> old(alloc.Offers(x)) && x != id
      ensures held == old(held)[id := content] && Dirty() == old(Dirty())[id := content] && id !in io.cache
    {
      id := alloc.AllocatePageId(tx);
      io.RemovePage(id);
      Add(id, content);
    }

    /** A new page that is filled and returned. */
    method WriteNewPage(page: Page) returns (id: PageId)
      requires Ready()
      modifies this`slots, this`held, alloc, io`cache
      ensures Ready() && old(alloc.Offers(id)) && id !in old(slots) && held == old(held)
      ensures forall x :: alloc.Offers(x) <==> old(alloc.Offers(x)) && x != id
      ensures Dirty() == old(Dirty())[id := page]
    {
      id := AllocatePage(JunkPage(0));
      ReturnPage(id, page);
    }

    method CowPage(id: PageId, ghost p: Page) returns (nid: PageId, page: Page, ghost given: seq<PageId>)
      requires Ready() && id !in held && id in Pages() && Pages()[id] == p && !alloc.Offers(id)
      modifies this`slots, this`held, this`freed, alloc, io`cache
      ensures Ready() && page == p && held == old(held)[nid := p] && nid !in old(held)
      ensures forall x :: x != nid && x in old(Pages()) ==> x in Pages() && Pages()[x] == old(Pages())[x]
      ensures forall x :: alloc.Offers(x) <==> old(alloc.Offers(x)) && x !in given
      ensures NoRepeats(given) && forall x :: x in given ==> old(alloc.Offers(x))
      ensures id in old(Dirty()) ==>
              given == [] && nid == id && Dirty() == old(Dirty()) && freed == old(freed)
      ensures id !in old(Dirty()) ==>
              given == [nid] && old(alloc.Offers(nid)) && Dirty() == old(Dirty())[nid := p]
              && freed == old(freed) + [id]
    {
      if id in slots {
        page := CheckOut(id);
        nid, given := id, [];
      } else {
        var oldPage := io.ReadPage(id);
        page := oldPage.value;
        nid := AllocatePage(page);
        freed := freed + [id];
        given := [nid];
      }
    }

    // ----- Insertion -----

    /** Insert into the leaf page that is checked out as `id`, and return it. */
    method InsertIntoLeaf(id: PageId, page: Page, k: Key, v: Value) returns (r: Insertion, ghost given: seq<PageId>)
      requires Ready() && page.LeafPage? && id in held
      modifies this`slots, this`held, alloc, io`cache
      ensures Ready() && held == old(held) - {id}
      ensures forall x :: alloc.Offers(x) <==> old(alloc.Offers(x)) && x !in given
      ensures NoRepeats(given) && forall x :: x in given ==> old(alloc.Offers(x))
      ensures forall extra :: PutLeaf(pageSize, Work(old(Dirty()), freed, given + extra), id, page, k, v)
                           == ResultOf(r, Dirty(), freed, extra)
    {
      var leaf := Leaf(page.entries, page.dataEnd);
      if LeafFits(leaf, k, v) {
        var after := LeafPut(leaf, k, v);
        ReturnPage(id, LeafPage(after.entries, after.dataEnd));
        r, given := Inserted(id, Sum(LeafPage(after.entries, after.dataEnd)), None), [];
        assert forall extra: seq<PageId> :: [] + extra == extra;
        return;
      }
      var split := SplitLeaf(pageSize, Upsert(page.entries, k, v));
      if split.Overflow? {
        given := GiveUp(id, page);
        return Unsupported, given;
      }
      var left := LeafPage(split.left.entries, split.left.dataEnd);
      var right := LeafPage(split.right.entries, split.right.dataEnd);
      r, given := WriteHalves(id, left, split.separator, right);
    }

    /** Return the page that is checked out as `id`, and the new page that was meant for its right half. */
    method GiveUp(id: PageId, page: Page) returns (ghost given: seq<PageId>)
      requires Ready() && id in held
      modifies this`slots, this`held, alloc, io`cache
      ensures Ready() && held == old(held) - {id}
      ensures forall x :: alloc.Offers(x) <==> old(alloc.Offers(x)) && x !in given
      ensures NoRepeats(given) && forall x :: x in given ==> old(alloc.Offers(x))
    {
      var rid := WriteNewPage(JunkPage(0));
      given := [rid];
      ReturnPage(id, page);
    }

    /** Write the two halves of a split page, the right one to a new page. */
    method WriteHalves(id: PageId, left: Page, separator: Key, right: Page)
      returns (r: Insertion, ghost given: seq<PageId>)
      requires Ready() && id in held
      modifies this`slots, this`held, alloc, io`cache
      ensures Ready() && held == old(held) - {id}
      ensures forall x :: alloc.Offers(x) <==> old(alloc.Offers(x)) && x !in given
      ensures NoRepeats(given) && forall x :: x in given ==> old(alloc.Offers(x))
      ensures forall extra :: SettleSplit(Work(old(Dirty()), freed, given + extra), id, left, separator, right)
                           == ResultOf(r, Dirty(), freed, extra)
    {
      var rid := WriteNewPage(right);
      given := [rid];
      ReturnPage(id, left);
      r := Inserted(id, Sum(left), Some(Sibling(separator, rid, Sum(right))));
      assert Dirty() == old(Dirty())[id := left][rid := right];
      HalvesPut(old(Dirty()), freed, id, left, separator, rid, right);
    }

    /** Put the rewritten child at `i` into the branch page that is checked out as `id`, and return it. */
    method InsertIntoBranch(id: PageId, cs: seq<Child>, i: nat, child: Insertion)
      returns (r: Insertion, ghost given: seq<PageId>)
      requires Ready() && id in held && i < |cs| && child.Inserted?
      modifies this`slots, this`held, alloc, io`cache
      ensures Ready() && held == old(held) - {id}
      ensures forall x :: alloc.Offers(x) <==> old(alloc.Offers(x)) && x !in given
      ensures NoRepeats(given) && forall x :: x in given ==> old(alloc.Offers(x))
      ensures forall extra :: PutBranch(pageSize, id, cs, i, ResultOf(child, old(Dirty()), freed, given + extra))
                           == ResultOf(r, Dirty(), freed, extra)
    {
      given := [];
      assert forall extra: seq<PageId> :: [] + extra == extra;
      var replaced := cs[i := Child(cs[i].key, child.id, child.sum)];
      if child.split.None? {
        ReturnPage(id, BranchPage(replaced));
        return Inserted(id, Sum(BranchPage(replaced)), None), [];
      }
      var s := child.split.value;
      var more := AddChild(replaced, Child(s.key, s.id, s.sum));
      if BranchFits(pageSize, EraseAll(replaced), s.key) {
        ReturnPage(id, BranchPage(more));
        return Inserted(id, Sum(BranchPage(more)), None), [];
      }
      r, given := SplitBranchPage(id, more);
    }

    method SplitBranchPage(id: PageId, cs: seq<Child>) returns (r: Insertion, ghost given: seq<PageId>)
      requires Ready() && id in held
      modifies this`slots, this`held, alloc, io`cache
      ensures Ready() && held == old(held) - {id}
      ensures forall x :: alloc.Offers(x) <==> old(alloc.Offers(x)) && x !in given
      ensures NoRepeats(given) && forall x :: x in given ==> old(alloc.Offers(x))
      ensures forall extra :: SplitChildren(pageSize, Work(old(Dirty()), freed, given + extra), id, cs)
                           == ResultOf(r, Dirty(), freed, extra)
    {
      if SplitBranch(pageSize, EraseAll(cs)).Overflow? {
        given := GiveUp(id, BranchPage(cs));
        return Unsupported, given;
      }
      var mid := |cs| / 2;
      var left, right := BranchPage(DropFirstKeyOf(cs[..mid])), BranchPage(DropFirstKeyOf(cs[mid..]));
      r, given := WriteHalves(id, left, cs[mid].key, right);
    }

    /** `insert_recursive`: what it does to the transaction is `Put`, with the ids that the allocator gave. */
    method InsertRecursive(id: PageId, k: Key, v: Value, ghost sum: Checksum)
      returns (r: Insertion, ghost given: seq<PageId>)
      requires Ready() && Verified(Pages(), id, sum) && Distinct(id, sum.page)
      requires Ids(id, sum.page) !! held.Keys && forall x :: x in Ids(id, sum.page) ==> !alloc.Offers(x)
      modifies this`slots, this`held, this`freed, alloc, io`cache
      ensures Ready() && held == old(held)
      ensures forall x :: alloc.Offers(x) <==> old(alloc.Offers(x)) && x !in given
      ensures NoRepeats(given) && forall x :: x in given ==> old(alloc.Offers(x))
      ensures Puts(pageSize, old(Dirty()), old(freed), given, id, sum, k, v, r, Dirty(), freed)
      decreases sum
    {
      ghost var first, more: seq<PageId>;
      var nid, page;
      nid, page, first := CowPage(id, sum.page);
      ghost var dirty1, freed1 := Dirty(), freed;
      IdsOfEmpty();
      if page.BranchPage? {
        AllVerifiedFrame(old(Pages()), Pages(), page.children);
      }
      r, more := InsertNode(nid, k, v, page);
      given := first + more;
      NoRepeatsConcat(first, more);
      NodePuts(pageSize, old(Dirty()), old(freed), first, id, sum, k, v, nid, dirty1, freed1, more, r, Dirty(), freed);
    }

    /** Insert into the page that is checked out as `id`, and return it. */
    method InsertNode(id: PageId, k: Key, v: Value, page: Page) returns (r: Insertion, ghost given: seq<PageId>)
      requires Ready() && id in held && !page.JunkPage?
      requires var cs := ChildrenOf(page);
               && AllVerified(Pages(), cs) && DistinctAll(cs)
               && IdsOf(cs) !! held.Keys && forall x :: x in IdsOf(cs) ==> !alloc.Offers(x)
      modifies this`slots, this`held, this`freed, alloc, io`cache
      ensures Ready() && held == old(held) - {id}
      ensures forall x :: alloc.Offers(x) <==> old(alloc.Offers(x)) && x !in given
      ensures NoRepeats(given) && forall x :: x in given ==> old(alloc.Offers(x))
      ensures PutsInto(pageSize, old(Dirty()), old(freed), given, id, page, k, v, r, Dirty(), freed)
      decreases page, 1
    {
      match page
      case LeafPage(_, _) =>
        r, given := InsertIntoLeaf(id, page, k, v);
      case BranchPage(cs) =>
        if cs == [] {
          ReturnPage(id, page);
          r, given := Unsupported, [];
        } else {
          r, given := InsertBelow(id, k, v, page);
        }
    }

    /** Insert below the branch page that is checked out as `id`, and return it. */
    method InsertBelow(id: PageId, k: Key, v: Value, page: Page) returns (r: Insertion, ghost given: seq<PageId>)
      requires Ready() && id in held && page.BranchPage? && page.children != []
      requires var cs := page.children;
               && AllVerified(Pages(), cs) && DistinctAll(cs)
               && IdsOf(cs) !! held.Keys && forall x :: x in IdsOf(cs) ==> !alloc.Offers(x)
      modifies this`slots, this`held, this`freed, alloc, io`cache
      ensures Ready() && held == old(held) - {id}
      ensures forall x :: alloc.Offers(x) <==> old(alloc.Offers(x)) && x !in given
      ensures NoRepeats(given) && forall x :: x in given ==> old(alloc.Offers(x))
      ensures PutsBelow(pageSize, old(Dirty()), old(freed), given, id, page.children, k, v, r, Dirty(), freed)
      decreases page, 0
    {
      var cs := page.children;
      var i := ChildIndex(EraseAll(cs), k);
      ChildIds(cs, i);
      assert ChildVerified(Pages(), cs, i);
      ghost var more, last: seq<PageId>;
      var child;
      child, more := InsertRecursive(cs[i].page, k, v, cs[i].sum);
      ghost var dirty2, freed2 := Dirty(), freed;
      if child.Unsupported? {
        ReturnPage(id, page);
        r, last := Unsupported, [];
      } else {
        r, last := InsertIntoBranch(id, cs, i, child);
      }
      given := more + last;
      NoRepeatsConcat(more, last);
      BelowPuts(pageSize, old(Dirty()), old(freed), more, id, cs, k, v, child, dirty2, freed2, last, r, Dirty(), freed);
    }

    // ----- The transaction's interface -----

    /** Between insertions no page is checked out, and the transaction is sound on the committed pages `base`. */
    ghost predicate Between(base: set<PageId>)
      reads this, io, alloc
    {
      && Ready() && held == map[]
      && WorkOk(io.file, base, Work(Dirty(), freed, []), root, sum)
      && forall x :: x in base ==> HEADER_PAGE < x && !alloc.Offers(x)
    }

    /** `Tree::insert`. */
    method InsertRoot(k: Key, v: Value) returns (ok: bool, ghost given: seq<PageId>)
      requires Ready() && held == map[] && Verified(Pages(), root, sum) && Distinct(root, sum.page)
      requires forall x :: x in Ids(root, sum.page) ==> !alloc.Offers(x)
      modifies this`slots, this`held, this`freed, this`root, this`sum, alloc, io`cache
      ensures Ready() && held == map[]
      ensures forall x :: alloc.Offers(x) <==> old(alloc.Offers(x)) && x !in given
      ensures NoRepeats(given) && forall x :: x in given ==> old(alloc.Offers(x))
      ensures PutRoot(pageSize, Work(old(Dirty()), old(freed), given), old(root), old(sum), k, v)
           == if ok then Done(Work(Dirty(), freed, []), root, sum, None) else Overflowed
    {
      ghost var dirty0, freed0, root0, sum0 := Dirty(), freed, root, sum;
      var r;
      r, given := InsertRecursive(root, k, v, sum);
      RootPuts(pageSize, dirty0, freed0, given, root0, sum0, k, v, r, Dirty(), freed);
      if r.Unsupported? {
        return false, given;
      }
      if r.split.None? {
        root, sum := r.id, r.sum;
        return true, given;
      }
      ghost var dirty1 := Dirty();
      ghost var rid;
      ok, rid := GrowRoot(r.id, r.sum, r.split.value);
      GrownPuts(pageSize, dirty0, freed0, given, root0, sum0, k, v, r, dirty1, freed, rid);
      NoRepeatsConcat(given, [rid]);
      given := given + [rid];
    }

    /** A new root above the two halves of the old one. */
    method GrowRoot(left: PageId, leftSum: Checksum, s: Sibling) returns (ok: bool, ghost rid: PageId)
      requires Ready() && held == map[]
      modifies this`slots, this`held, this`root, this`sum, alloc, io`cache
      ensures Ready() && held == map[] && old(alloc.Offers(rid))
      ensures forall x :: alloc.Offers(x) <==> old(alloc.Offers(x)) && x != rid
      ensures var page := BranchPage([Child([], left, leftSum), Child(s.key, s.id, s.sum)]);
              if BranchBuilds(pageSize, EraseAll(page.children))
              then ok && Dirty() == old(Dirty())[rid := page] && root == rid && sum == Sum(page)
              else !ok
    {
      var page := BranchPage([Child([], left, leftSum), Child(s.key, s.id, s.sum)]);
      ok := BranchBuilds(pageSize, EraseAll(page.children));
      var id := WriteNewPage(if ok then page else JunkPage(0));
      rid := id;
      if ok {
        root, sum := id, Sum(page);
      }
    }

    /** `WriteTransaction::insert`: a successful insertion sets one key of the transaction's map. */
    method Insert(k: Key, v: Value, ghost base: set<PageId>) returns (ok: bool)
      requires !failed ==> Between(base)
      modifies this`slots, this`held, this`freed, this`root, this`sum, this`failed, alloc, io`cache
      ensures old(failed) ==> slots == old(slots) && freed == old(freed) && root == old(root) && sum == old(sum)
      ensures ok <==> !failed
      ensures ok ==> !old(failed) && Between(base) && PairsAt(sum) == Upsert(PairsAt(old(sum)), k, v)
      ensures !old(failed) ==> (ok <==> !NoRoom(pageSize, Erase(old(sum).page), k, v))
    {
      if failed {
        return false;
      }
      ghost var before, root0, sum0 := Work(Dirty(), freed, []), root, sum;
      ghost var given;
      ok, given := InsertRoot(k, v);
      failed := !ok;
      InsertGiven(io.file, base, pageSize, before, given, root0, sum0, k, v);
    }

    /** Write every dirty page to the file. */
    method FlushPages()
      requires HeldOk(slots, held) && held == map[] && io.Coherent()
      modifies io`file, io`cache
      ensures io.Coherent() && io.file == old(io.file) + Dirty()
    {
      var todo := slots.Keys;
      while todo != {}
        invariant io.Coherent() && todo <= slots.Keys
        invariant io.file.Keys == old(io.file).Keys + (slots.Keys - todo)
        invariant forall x :: x in io.file ==>
                    io.file[x] == if x in slots && x !in todo then Dirty()[x] else old(io.file)[x]
        decreases todo
      {
        var x :| x in todo;
        io.WritePage(x, slots[x].page);
        todo := todo - {x};
      }
    }

    /** Hand the replaced pages to the allocator. */
    method FreePages()
      requires state.header == io.durableHeader && Active(state.header).tx == tx
      modifies alloc
      ensures alloc.State() == ReleaseAll(old(alloc.State()), freed, tx)
    {
      for i := 0 to |freed|
        invariant alloc.State() == ReleaseAll(old(alloc.State()), freed[..i], tx)
      {
        alloc.FreePage(freed[i], tx);
        assert freed[..i + 1][..i] == freed[..i];
      }
      assert freed[..|freed|] == freed;
    }

    /** `WriteTransaction::commit`: the file gets the dirty pages, the header names the new tree, which
        verifies, all of this is synced, and only then are the replaced pages queued for reuse. The allocator
        stays in order and offers no page of the new tree. */
    method Commit(ghost base: set<PageId>) returns (ok: bool)
      requires !failed ==> Between(base) && base == Ids(Active(state.header).root, Active(state.header).sum.page)
      modifies io, alloc, state
      ensures ok <==> !failed
      ensures !ok ==> && io.file == old(io.file) && io.headerPage == old(io.headerPage)
                      && state.header == old(state.header)
                      && alloc.State() == old(alloc.State())
                      && io.durableFile == old(io.durableFile) && io.durableHeader == old(io.durableHeader)
      ensures ok ==> && io.Coherent() && io.file == io.durableFile == old(io.file) + Dirty()
                     && state.header == io.headerPage == io.durableHeader
                     && state.header == WithCommit(old(state.header), Slot(root, sum, tx, old(alloc.next)))
                     && Sound(io.file, Active(state.header).root, Active(state.header).sum)
                     && Ids(root, sum.page) == base - Elems(freed) + Dirty().Keys
      ensures ok ==> && alloc.State() == ReleaseAll(old(alloc.State()), freed, tx) && AllocatorOk(alloc.State(), tx)
                     && forall x :: x in Ids(root, sum.page) ==> !alloc.Offers(x)
    {
      if failed {
        return false;
      }
      FlushedTree(io.file, base, Work(Dirty(), freed, []), root, sum);
      ReleaseAllOk(alloc.State(), freed, tx);
      FlushPages();
      state.PublishCommit(io, alloc, root, sum, tx);
      FreePages();
      return true;
    }
  }

  /** Queueing pages that were neither queued nor new keeps the allocator in order. */
  lemma {:induction false} ReleaseAllOk(a: Allocator, pages: seq<PageId>, tx: nat)
    requires AllocatorOk(a, tx) && NoRepeats(pages)
    requires forall x :: x in pages ==> 0 < x < a.next && x !in Queued(a)
    ensures var b := ReleaseAll(a, pages, tx);
            AllocatorOk(b, tx) && b.next == a.next && Queued(b) == Queued(a) + Elems(pages)
  {
    if pages != [] {
      var front, last := pages[..|pages| - 1], pages[|pages| - 1];
      assert pages == front + [last];
      NoRepeatsConcat(front, [last]);
      ElemsConcat(front, [last]);
      assert last in pages && Elems([last]) == {last};
      assert forall x :: x in front ==> x in pages;
      ReleaseAllOk(a, front, tx);
      assert last !in Elems(front);
      ReleaseOk(ReleaseAll(a, front, tx), last, tx);
    }
  }

  lemma {:induction false} HalvesPut(dirty: Store, freed: seq<PageId>, id: PageId, left: Page, separator: Key,
                                     rid: PageId, right: Page)
    ensures forall extra :: SettleSplit(Work(dirty, freed, [rid] + extra), id, left, separator, right)
                         == Done(Work(dirty[id := left][rid := right], freed, extra), id, Sum(left),
                                 Some(Sibling(separator, rid, Sum(right))))
  {
    forall extra: seq<PageId>
      ensures ([rid] + extra)[0] == rid && ([rid] + extra)[1..] == extra
    {
    }
  }

  /** The new tree after the flush, and the pages that may be queued. */
  lemma {:induction false} FlushedTree(file: Store, base: set<PageId>, w: Work, root: PageId, sum: Checksum)
    requires WorkOk(file, base, w, root, sum)
    ensures Sound(file + w.dirty, root, sum) && Ids(root, sum.page) == base - Elems(w.freed) + w.dirty.Keys
    ensures NoRepeats(w.freed) && forall x :: x in w.freed ==> x in base && x !in Ids(root, sum.page)
  {
    assert forall x :: x in w.freed ==> x in Elems(w.freed);
  }

  ghost predicate PutsBelow(pageSize: nat, dirty: Store, freed: seq<PageId>, given: seq<PageId>, id: PageId,
                            cs: seq<Child>, k: Key, v: Value, r: Insertion, dirty': Store, freed': seq<PageId>)
    requires cs != []
  {
    var i := ChildIndex(EraseAll(cs), k);
    forall extra :: PutBranch(pageSize, id, cs, i,
                              Put(pageSize, Work(dirty, freed, given + extra), cs[i].page, cs[i].sum, k, v))
                 == ResultOf(r, dirty', freed', extra)
  }

  ghost predicate Copied(dirty: Store, freed: seq<PageId>, first: seq<PageId>, id: PageId, p: Page, nid: PageId,
                         dirty1: Store, freed1: seq<PageId>) {
    if id in dirty then first == [] && nid == id && dirty1 == dirty && freed1 == freed
    else first == [nid] && dirty1 == dirty[nid := p] && freed1 == freed + [id]
  }

  ghost predicate PutsInto(pageSize: nat, dirty: Store, freed: seq<PageId>, given: seq<PageId>, id: PageId, page: Page,
                           k: Key, v: Value, r: Insertion, dirty': Store, freed': seq<PageId>) {
    match page
    case LeafPage(_, _) =>
      forall extra ::
        PutLeaf(pageSize, Work(dirty, freed, given + extra), id, page, k, v) == ResultOf(r, dirty', freed', extra)
    case BranchPage(cs) =>
      if cs == [] then r.Unsupported? else PutsBelow(pageSize, dirty, freed, given, id, cs, k, v, r, dirty', freed')
    case JunkPage(_) => false
  }

  /** Copying a page and inserting into the copy is inserting into the page. */
  lemma {:induction false} NodePuts(pageSize: nat, dirty: Store, freed: seq<PageId>, first: seq<PageId>, id: PageId,
                                    sum: Checksum, k: Key, v: Value, nid: PageId, dirty1: Store, freed1: seq<PageId>,
                                    more: seq<PageId>, r: Insertion, dirty': Store, freed': seq<PageId>)
    requires Copied(dirty, freed, first, id, sum.page, nid, dirty1, freed1)
    requires PutsInto(pageSize, dirty1, freed1, more, nid, sum.page, k, v, r, dirty', freed')
    ensures Puts(pageSize, dirty, freed, first + more, id, sum, k, v, r, dirty', freed')
  {
    forall extra
      ensures Put(pageSize, Work(dirty, freed, first + more + extra), id, sum, k, v)
              == ResultOf(r, dirty', freed', extra)
    {
      ConcatAssoc(first, more, extra);
      CopyThenPut(pageSize, dirty, freed, first, id, sum, k, v, nid, dirty1, freed1, more + extra);
      var cs := ChildrenOf(sum.page);
      if cs != [] {
        var i := ChildIndex(EraseAll(cs), k);
        assert PutBranch(pageSize, nid, cs, i,
                         Put(pageSize, Work(dirty1, freed1, more + extra), cs[i].page, cs[i].sum, k, v))
            == ResultOf(r, dirty', freed', extra);
      }
    }
  }

  lemma {:induction false} CopyThenPut(pageSize: nat, dirty: Store, freed: seq<PageId>, first: seq<PageId>, id: PageId,
                                       sum: Checksum, k: Key, v: Value, nid: PageId, dirty1: Store, freed1: seq<PageId>,
                                       rest: seq<PageId>)
    requires Copied(dirty, freed, first, id, sum.page, nid, dirty1, freed1)
    ensures var r, cs := Put(pageSize, Work(dirty, freed, first + rest), id, sum, k, v), ChildrenOf(sum.page);
            var w := Work(dirty1, freed1, rest);
            if sum.page.LeafPage? then r == PutLeaf(pageSize, w, nid, sum.page, k, v)
            else if cs == [] then r == Overflowed
            else var i := ChildIndex(EraseAll(cs), k);
                 r == PutBranch(pageSize, nid, cs, i, Put(pageSize, w, cs[i].page, cs[i].sum, k, v))
  {
    var spare := first + rest;
    assert first == [nid] ==> spare[0] == nid && spare[1..] == rest;
    assert first == [] ==> spare == rest;
  }

  lemma {:induction false} BelowPuts(pageSize: nat, dirty: Store, freed: seq<PageId>, more: seq<PageId>, id: PageId,
                                     cs: seq<Child>,
                                     k: Key, v: Value, child: Insertion, dirty2: Store, freed2: seq<PageId>,
                                     last: seq<PageId>, r: Insertion, dirty': Store, freed': seq<PageId>)
    requires cs != []
    requires var i := ChildIndex(EraseAll(cs), k);
             && Puts(pageSize, dirty, freed, more, cs[i].page, cs[i].sum, k, v, child, dirty2, freed2)
             && if child.Unsupported? then r.Unsupported?
                else forall extra ::
                       ResultOf(r, dirty', freed', extra)
                       == PutBranch(pageSize, id, cs, i, ResultOf(child, dirty2, freed2, last + extra))
    ensures PutsBelow(pageSize, dirty, freed, more + last, id, cs, k, v, r, dirty', freed')
  {
    var i := ChildIndex(EraseAll(cs), k);
    forall extra
      ensures PutBranch(pageSize, id, cs, i,
                        Put(pageSize, Work(dirty, freed, more + last + extra), cs[i].page, cs[i].sum, k, v))
           == ResultOf(r, dirty', freed', extra)
    {
      assert more + last + extra == more + (last + extra);
      assert Put(pageSize, Work(dirty, freed, more + (last + extra)), cs[i].page, cs[i].sum, k, v)
          == ResultOf(child, dirty2, freed2, last + extra);
    }
  }

  /** Insertion with ids that the allocator gave, which are a supply for the transaction. */
  lemma {:induction false} InsertGiven(disk: Store, base: set<PageId>, pageSize: nat, w: Work, given: seq<PageId>,
                                       id: PageId, sum: Checksum, k: Key, v: Value)
    requires WorkOk(disk, base, w, id, sum) && NoRepeats(given)
    requires Elems(given) !! base && Elems(given) !! w.dirty.Keys
    ensures var r := PutRoot(pageSize, w.(spare := given), id, sum, k, v);
            && (!r.Starved? ==> (r.Overflowed? <==> NoRoom(pageSize, Erase(sum.page), k, v)))
            && (r.Done? ==> WorkOk(disk, base, r.work, r.id, r.sum) && PairsAt(r.sum) == Upsert(PairsAt(sum), k, v))
  {
    var supplied := w.(spare := given);
    assert View(disk, supplied) == View(disk, w);
    if !PutRoot(pageSize, supplied, id, sum, k, v).Starved? {
      PutRootFailsIff(View(disk, w), pageSize, supplied, id, sum, k, v);
    }
    if PutRoot(pageSize, supplied, id, sum, k, v).Done? {
      InsertKeepsWork(disk, base, pageSize, supplied, id, sum, k, v);
    }
  }

  /** The page of a new root. */
  ghost function RootPage(r: Insertion): Page
    requires r.Inserted? && r.split.Some?
  {
    BranchPage([Child([], r.id, r.sum), Child(r.split.value.key, r.split.value.id, r.split.value.sum)])
  }

  /** From the root page to the whole tree. */
  lemma {:induction false} RootPuts(pageSize: nat, dirty: Store, freed: seq<PageId>, given: seq<PageId>, id: PageId,
                                    sum: Checksum, k: Key, v: Value, r: Insertion, dirty': Store, freed': seq<PageId>)
    requires Puts(pageSize, dirty, freed, given, id, sum, k, v, r, dirty', freed')
    ensures r.Unsupported? ==> PutRoot(pageSize, Work(dirty, freed, given), id, sum, k, v) == Overflowed
    ensures r.Inserted? && r.split.None? ==>
            PutRoot(pageSize, Work(dirty, freed, given), id, sum, k, v)
            == Done(Work(dirty', freed', []), r.id, r.sum, None)
  {
    assert Put(pageSize, Work(dirty, freed, given + []), id, sum, k, v) == ResultOf(r, dirty', freed', []);
    ConcatEmpty(given);
  }

  lemma {:induction false} GrownPuts(pageSize: nat, dirty: Store, freed: seq<PageId>, given: seq<PageId>, id: PageId,
                                     sum: Checksum,
                                     k: Key, v: Value, r: Insertion, dirty': Store, freed': seq<PageId>, rid: PageId)
    requires Puts(pageSize, dirty, freed, given, id, sum, k, v, r, dirty', freed') && r.Inserted? && r.split.Some?
    ensures PutRoot(pageSize, Work(dirty, freed, given + [rid]), id, sum, k, v)
         == if BranchBuilds(pageSize, EraseAll(RootPage(r).children))
            then Done(Work(dirty'[rid := RootPage(r)], freed', []), rid, Sum(RootPage(r)), None) else Overflowed
  {
    assert Put(pageSize, Work(dirty, freed, given + [rid]), id, sum, k, v) == ResultOf(r, dirty', freed', [rid]);
    assert [rid][1..] == [];
  }
}
