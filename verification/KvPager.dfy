/** The objects that a database is made of: the reader tracker, the page allocator, the page cache over the
    file, and the committed header. Each method is tied to its step in the models of pages and commits. */
module KvPager {
  import opened Collections
  import opened KvKeys
  import opened KvTree
  import opened KvTreeProofs
  import opened KvPages
  import opened KvLedger
  import opened KvTransaction
  import opened KvAllocator
  import opened KvDb
  import opened KvDbInvariant

  // ----- Readers -----

  lemma {:induction false} LeastExists(s: set<nat>, x: nat)
    requires x in s
    ensures exists o :: o in s && forall u :: u in s ==> o <= u
    decreases x
  {
    if u :| u in s && u < x {
      LeastExists(s, u);
    } else {
      assert forall u :: u in s ==> x <= u;
    }
  }

  class ReadTracker {
    var readers: Tracker

    constructor ()
      ensures readers == map[]
    {
      readers := map[];
    }

    method BeginRead(tx: nat)
      modifies this
      ensures readers == Enter(old(readers), tx)
    {
      if tx in readers {
        readers := readers[tx := readers[tx] + 1];
      } else {
        readers := readers[tx := 1];
      }
    }

    /** Dropping the guard of a reader. */
    method EndRead(tx: nat)
      requires tx in readers ==> readers[tx] > 0
      modifies this
      ensures readers == Leave(old(readers), tx)
    {
      if tx in readers {
        readers := readers[tx := readers[tx] - 1];
        if readers[tx] == 0 {
          readers := readers - {tx};
        }
      }
    }

    method OldestActive() returns (oldest: Option<nat>)
      ensures IsOldest(readers, oldest)
    {
      if readers == map[] {
        return None;
      }
      ghost var x :| x in readers.Keys;
      LeastExists(readers.Keys, x);
      var o :| o in readers.Keys && forall u :: u in readers.Keys ==> o <= u;
      return Some(o);
    }
  }

  // ----- Page ids -----

  class PageAllocator {
    var queue: seq<Freed>
    var next: PageId
    var reserved: nat
    const tracker: ReadTracker

    ghost function State(): Allocator
      reads this
    {
      Allocator(queue, next, reserved)
    }

    /** The ids that the allocator may still hand out. */
    ghost predicate Offers(x: PageId)
      reads this
    {
      x >= next || x in Queued(State())
    }

    constructor (tracker: ReadTracker, next: PageId, filePages: nat)
      ensures this.tracker == tracker && State() == Allocator([], next, filePages)
    {
      this.tracker := tracker;
      queue, this.next, reserved := [], next, filePages;
    }

    method AllocatePageId(ghost tx: nat) returns (id: PageId)
      requires AllocatorOk(State(), tx)
      modifies this
      ensures exists oldest :: IsOldest(tracker.readers, oldest) && id == AllocatedId(old(State()), oldest)
                               && State() == Allocate(old(State()), oldest)
      ensures if old(queue) != [] && forall u :: u in tracker.readers ==> old(queue)[0].tx < u then
                && id == old(queue)[0].page && queue == old(queue)[1..]
                && next == old(next) && reserved == old(reserved)
              else
                && id == old(next) && queue == old(queue) && next == old(next) + 1
                && reserved == old(reserved) + if old(next) < old(reserved) then 0 else 1024
      ensures AllocatorOk(State(), tx)
      ensures old(Offers(id)) && forall x :: Offers(x) <==> old(Offers(x)) && x != id
    {
      ghost var before := State();
      var oldest := tracker.OldestActive();
      AllocateOk(before, tracker.readers, oldest, tx);
      if queue != [] && (oldest.None? || queue[0].tx < oldest.value) {
        id := queue[0].page;
        queue := queue[1..];
      } else {
        id := next;
        next := next + 1;
        if next > reserved {
          reserved := reserved + ALLOCATION_BATCH;
        }
      }
      assert State() == Allocate(before, oldest) && id == AllocatedId(before, oldest);
    }

    method FreePage(page: PageId, tx: nat)
      modifies this
      ensures State() == Release(old(State()), page, tx)
      ensures queue == old(queue) + [Freed(page, tx)] && next == old(next) && reserved == old(reserved)
    {
      queue := queue + [Freed(page, tx)];
    }
  }

  // ----- Pages of the file, through a cache -----

  class PageIO {
    var file: Store
    var headerPage: Header
    var cache: Store
    ghost var durableFile: Store // what a crash cannot take away
    ghost var durableHeader: Header

    /** A cached page equals the page of the file. */
    ghost predicate Coherent()
      reads this
    {
      forall x :: x in cache ==> x in file && cache[x] == file[x]
    }

    constructor (file: Store, headerPage: Header)
      ensures Coherent() && this.file == file && this.headerPage == headerPage
      ensures durableFile == file && durableHeader == headerPage
    {
      this.file, this.headerPage, cache := file, headerPage, map[];
      durableFile, durableHeader := file, headerPage;
    }

    /** Nothing comes back for a page beyond the end of the file. */
    method ReadPage(id: PageId) returns (page: Option<Page>)
      requires Coherent()
      modifies this`cache
      ensures Coherent()
      ensures page == if id in file then Some(file[id]) else None
      ensures cache == if id in file then old(cache)[id := file[id]] else old(cache)
    {
      if id in cache {
        return Some(cache[id]);
      }
      if id !in file {
        return None;
      }
      cache := cache[id := file[id]];
      return Some(file[id]);
    }

    method WritePage(id: PageId, page: Page)
      requires Coherent()
      modifies this`file, this`cache
      ensures Coherent() && file == old(file)[id := page] && cache == old(cache)[id := page]
    {
      file := file[id := page];
      cache := cache[id := page];
    }

    /** Eviction, by the cache itself or because the page is about to be reused. */
    method RemovePage(id: PageId)
      requires Coherent()
      modifies this`cache
      ensures Coherent() && cache == old(cache) - {id}
    {
      cache := cache - {id};
    }

    method WriteHeaderPage(h: Header)
      modifies this`headerPage
      ensures headerPage == h
    {
      headerPage := h;
    }

    /** `sync_data`: everything written so far survives a crash. */
    method SyncData()
      modifies this`durableFile, this`durableHeader
      ensures durableFile == file && durableHeader == headerPage
    {
      durableFile, durableHeader := file, headerPage;
    }
  }

  // ----- Walking the tree -----

  /** How `Tree::verify_pages` ends: a page beyond the end of the file is an error of its own kind. */
  datatype Verdict = Accepted | Mismatch | Unreadable

  ghost function VerdictOn(store: Store, id: PageId, sum: Checksum): Verdict
    decreases sum, 1
  {
    if id !in store then Unreadable
    else if store[id] != sum.page then Mismatch
    else
      match sum.page
      case LeafPage(_, _) => Accepted
      case JunkPage(_) => Mismatch
      case BranchPage(cs) => VerdictOnRest(store, cs, 0)
  }

  /** The first child from `i` on that is not accepted decides. */
  ghost function VerdictOnRest(store: Store, cs: seq<Child>, i: nat): Verdict
    decreases cs, |cs| - i
  {
    if i >= |cs| then Accepted
    else
      var v := VerdictOn(store, cs[i].page, cs[i].sum);
      if v.Accepted? then VerdictOnRest(store, cs, i + 1) else v
  }

  /** Exactly the verified trees are accepted, and no tree whose pages are all in the file is unreadable. */
  lemma {:induction false} VerdictIs(store: Store, id: PageId, sum: Checksum)
    ensures VerdictOn(store, id, sum).Accepted? <==> Verified(store, id, sum)
    ensures Ids(id, sum.page) <= store.Keys ==> !VerdictOn(store, id, sum).Unreadable?
    decreases sum, 1
  {
    assert id in Ids(id, sum.page);
    if sum.page.BranchPage? {
      var cs := sum.page.children;
      assert IdsOf(cs) <= Ids(id, sum.page);
      VerdictOnRestIs(store, cs, 0);
      if VerdictOnRest(store, cs, 0).Accepted? {
        assert AllVerified(store, cs);
      }
      assert VerdictOnRest(store, cs, 0).Accepted? <==> AllVerified(store, cs);
    }
  }

  /** The children from `i` on are verified. */
  ghost predicate RestVerified(store: Store, cs: seq<Child>, i: nat) {
    forall j {:trigger ChildVerified(store, cs, j)} :: i <= j < |cs| ==> ChildVerified(store, cs, j)
  }

  lemma {:induction false} RestVerifiedStep(store: Store, cs: seq<Child>, i: nat)
    requires i < |cs|
    ensures RestVerified(store, cs, i) <==>
            Verified(store, cs[i].page, cs[i].sum) && RestVerified(store, cs, i + 1)
  {
    assert ChildVerified(store, cs, i) <==> Verified(store, cs[i].page, cs[i].sum);
  }

  lemma {:induction false} VerdictOnRestIs(store: Store, cs: seq<Child>, i: nat)
    requires i <= |cs|
    ensures VerdictOnRest(store, cs, i).Accepted? <==> RestVerified(store, cs, i)
    ensures IdsOf(cs) <= store.Keys ==> !VerdictOnRest(store, cs, i).Unreadable?
    decreases cs, |cs| - i
  {
    if i < |cs| {
      ChildIds(cs, i);
      VerdictIs(store, cs[i].page, cs[i].sum);
      VerdictOnRestIs(store, cs, i + 1);
      RestVerifiedStep(store, cs, i);
    }
  }

  /** `Tree::verify_pages` accepts exactly the verified trees. */
  method VerifyPages(io: PageIO, id: PageId, expected: Checksum) returns (verdict: Verdict)
    requires io.Coherent()
    modifies io`cache
    ensures io.Coherent()
    ensures verdict == VerdictOn(io.file, id, expected)
    ensures verdict.Accepted? <==> Verified(io.file, id, expected)
    decreases expected
  {
    VerdictIs(io.file, id, expected);
    var page := io.ReadPage(id);
    if page.None? {
      return Unreadable;
    }
    if Sum(page.value) != expected {
      return Mismatch;
    }
    match page.value
    case LeafPage(_, _) => return Accepted;
    case JunkPage(_) => return Mismatch;
    case BranchPage(cs) =>
      assert expected.page == BranchPage(cs);
      for i := 0 to |cs|
        invariant io.Coherent()
        invariant VerdictOnRest(io.file, cs, i) == VerdictOnRest(io.file, cs, 0)
      {
        var child := VerifyPages(io, cs[i].page, cs[i].sum);
        if !child.Accepted? {
          return child;
        }
      }
      return Accepted;
  }

  /** `Tree::get`: from the root of a sound tree down to the answer of the map. */
  method GetValue(io: PageIO, root: PageId, ghost sum: Checksum, k: Key) returns (r: Option<Value>)
    requires io.Coherent() && Sound(io.file, root, sum)
    modifies io`cache
    ensures io.Coherent()
    ensures r == Lookup(PairsAt(sum), k)
  {
    ghost var top: nat :| Ordered(Erase(sum.page), top, [], None);
    GetIsLookup(Erase(sum.page), top, [], None, k);
    var id := root;
    ghost var at := sum;
    ghost var depth, lo, hi := top, [], None;
    while true
      invariant io.Coherent() && Verified(io.file, id, at)
      invariant Ordered(Erase(at.page), depth, lo, hi) && KeyIn(k, lo, hi)
      invariant Get(Erase(at.page), k) == Lookup(PairsAt(sum), k)
      decreases depth
    {
      var page := io.ReadPage(id);
      match page.value
      case LeafPage(es, _) => return Lookup(es, k);
      case BranchPage(cs) =>
        var i := ChildIndex(EraseAll(cs), k);
        ChildRange(EraseAll(cs), depth, lo, hi, k);
        assert ChildVerified(io.file, cs, i);
        id, at := cs[i].page, cs[i].sum;
        depth, lo, hi := depth - 1, LowOf(EraseAll(cs), i, lo), HighOf(EraseAll(cs), i, hi);
    }
  }

  // ----- Opening and publishing -----

  datatype Recovery = Recovered(header: Header) | Rejected | ReadError

  /** The active slot if its tree verifies, else the other slot if that one does; an error while reading ends
      the attempt. */
  ghost function RecoveryOf(store: Store, h: Header): Recovery {
    match VerdictOn(store, Active(h).root, Active(h).sum)
    case Accepted => Recovered(h)
    case Unreadable => ReadError
    case Mismatch =>
      match VerdictOn(store, Inactive(h).root, Inactive(h).sum)
      case Accepted => Recovered(Switch(h))
      case Unreadable => ReadError
      case Mismatch => Rejected
  }

  /** `recover_header`: with all pages of both slots inside the file, as they are in every run, this is the
      recovery of the state machine. */
  method RecoverHeader(io: PageIO) returns (r: Recovery)
    requires io.Coherent()
    modifies io`cache
    ensures io.Coherent()
    ensures r == RecoveryOf(io.file, io.headerPage)
    ensures r.Recovered? ==> Recover(io.file, io.headerPage) == Some(r.header)
    ensures var h := io.headerPage;
            SlotIds(Active(h)) <= io.file.Keys && SlotIds(Inactive(h)) <= io.file.Keys ==>
              r == match Recover(io.file, h) case Some(k) => Recovered(k) case None => Rejected
  {
    var header := io.headerPage;
    VerdictIs(io.file, Active(header).root, Active(header).sum);
    VerdictIs(io.file, Inactive(header).root, Inactive(header).sum);
    var verdict := VerifyPages(io, Active(header).root, Active(header).sum);
    if verdict.Accepted? {
      return Recovered(header);
    }
    if verdict.Unreadable? {
      return ReadError;
    }
    verdict := VerifyPages(io, Inactive(header).root, Inactive(header).sum);
    match verdict
    case Accepted => return Recovered(Switch(header));
    case Mismatch => return Rejected;
    case Unreadable => return ReadError;
  }

  class CommitState {
    var header: Header

    constructor (header: Header)
      ensures this.header == header
    {
      this.header := header;
    }

    /** The inactive slot takes the commit, the header page is written, everything is synced, and only then the
        commit becomes visible; the slot that was active stays as it is. */
    method PublishCommit(io: PageIO, alloc: PageAllocator, root: PageId, sum: Checksum, tx: nat)
      modifies this, io`headerPage, io`durableFile, io`durableHeader
      ensures io.durableFile == io.file && io.durableHeader == header
      ensures Active(header) == Slot(root, sum, tx, alloc.next) && Inactive(header) == Active(old(header))
      ensures header == WithCommit(old(header), Slot(root, sum, tx, alloc.next)) && io.headerPage == header
    {
      var slot := Slot(root, sum, tx, alloc.next);
      var newHeader := WithCommit(header, slot);
      io.WriteHeaderPage(newHeader);
      io.SyncData();
      Show(io, newHeader);
    }

    /** Readers and writers see a commit only once a crash cannot take it away. */
    method Show(io: PageIO, newHeader: Header)
      requires io.durableFile == io.file && io.durableHeader == newHeader
      modifies this
      ensures header == newHeader
    {
      header := newHeader;
    }
  }
}
