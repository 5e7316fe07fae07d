/** Trees as pages in a store: page ids, checksums, and copy-on-write insertion.

    Checksums are taken to be free of collisions: the checksum of a page is modelled as a constructor
    applied to the page. A branch entry's checksum therefore stands for the whole subtree below it. */
module KvPages {
  import opened Collections
  import opened KvKeys
  import opened KvTree

  type PageId = nat

  datatype Page =
    | LeafPage(entries: seq<Pair>, dataEnd: nat)
    | BranchPage(children: seq<Child>)
    | JunkPage(content: nat) // a page that is not a node

  datatype Child = Child(key: Key, page: PageId, sum: Checksum)

  datatype Checksum = Sum(page: Page)

  type Store = map<PageId, Page>

  // ----- The tree a checksum stands for -----

  function Erase(p: Page): Tree
    decreases p, 1
  {
    match p
    case LeafPage(es, end) => Leaf(es, end)
    case BranchPage(cs) => Branch(EraseAll(cs))
    case JunkPage(_) => Leaf([], 0)
  }

  function EraseAll(cs: seq<Child>): (kids: seq<Kid>)
    ensures |kids| == |cs|
    ensures forall i :: 0 <= i < |cs| ==> kids[i] == Kid(cs[i].key, Erase(cs[i].sum.page))
    decreases cs, 0
  {
    if cs == [] then []
    else EraseAll(cs[..|cs| - 1]) + [Kid(cs[|cs| - 1].key, Erase(cs[|cs| - 1].sum.page))]
  }

  function LeafOf(t: Tree): Page
    requires t.Leaf?
  {
    LeafPage(t.entries, t.dataEnd)
  }

  // ----- Verification -----

  /** What `Tree::verify_pages` accepts: every page from `id` down is in the store with its checksum. */
  ghost predicate Verified(store: Store, id: PageId, sum: Checksum)
    decreases sum, 1
  {
    && id in store && store[id] == sum.page
    && match sum.page
       case LeafPage(_, _) => true
       case BranchPage(cs) => AllVerified(store, cs)
       case JunkPage(_) => false
  }

  ghost predicate AllVerified(store: Store, cs: seq<Child>)
    decreases cs, 0
  {
    forall i {:trigger ChildVerified(store, cs, i)} :: 0 <= i < |cs| ==> ChildVerified(store, cs, i)
  }

  ghost predicate ChildVerified(store: Store, cs: seq<Child>, i: nat)
    requires i < |cs|
    decreases cs, 0, 0
  {
    Verified(store, cs[i].page, cs[i].sum)
  }

  // ----- Page ids -----

  /** The pages a tree occupies. */
  ghost function Ids(id: PageId, p: Page): set<PageId>
    decreases p, 1
  {
    {id} + (if p.BranchPage? then IdsOf(p.children) else {})
  }

  ghost function IdsOf(cs: seq<Child>): set<PageId>
    decreases cs, 0
  {
    if cs == [] then {} else IdsOf(cs[..|cs| - 1]) + Ids(cs[|cs| - 1].page, cs[|cs| - 1].sum.page)
  }

  /** No page occurs twice in a tree. */
  ghost predicate Distinct(id: PageId, p: Page)
    decreases p, 1
  {
    p.BranchPage? ==> id !in IdsOf(p.children) && DistinctAll(p.children)
  }

  ghost predicate DistinctAll(cs: seq<Child>)
    decreases cs, 0
  {
    cs == [] ||
    var last := cs[|cs| - 1];
    && DistinctAll(cs[..|cs| - 1])
    && Distinct(last.page, last.sum.page)
    && IdsOf(cs[..|cs| - 1]) !! Ids(last.page, last.sum.page)
  }

  // ----- Copy-on-write insertion -----

  /** What a write transaction works on: its own pages, the pages it no longer needs, and page ids it has
      allocated but not used yet. */
  datatype Work = Work(dirty: Store, freed: seq<PageId>, spare: seq<PageId>)

  /** The pages as the transaction sees them. */
  function View(disk: Store, w: Work): Store {
    disk + w.dirty
  }

  datatype Sibling = Sibling(key: Key, id: PageId, sum: Checksum)

  datatype PutResult =
    | Done(work: Work, id: PageId, sum: Checksum, sibling: Option<Sibling>)
    | Overflowed
    | Starved // more page ids are needed

  function Write(w: Work, id: PageId, p: Page): Work {
    w.(dirty := w.dirty[id := p])
  }

  /** `cow_page`: a page of this transaction is used as it is, any other page is copied and freed. */
  function Cow(w: Work, id: PageId, p: Page): Work
    requires id !in w.dirty ==> w.spare != []
  {
    if id in w.dirty then w else Work(w.dirty[w.spare[0] := p], w.freed + [id], w.spare[1..])
  }

  function CowId(w: Work, id: PageId): PageId
    requires id !in w.dirty ==> w.spare != []
  {
    if id in w.dirty then id else w.spare[0]
  }

  /** Write the node, and its right half to a new page if it was split. */
  function Settle(w: Work, id: PageId, left: Page): PutResult {
    Done(Write(w, id, left), id, Sum(left), None)
  }

  function SettleSplit(w: Work, id: PageId, left: Page, key: Key, right: Page): PutResult {
    if w.spare == [] then Starved
    else
      var rid := w.spare[0];
      Done(Work(w.dirty[id := left][rid := right], w.freed, w.spare[1..]), id, Sum(left),
           Some(Sibling(key, rid, Sum(right))))
  }

  function AddChild(cs: seq<Child>, c: Child): seq<Child>
    requires |cs| > 0
  {
    var i := SeparatorBound(EraseAll(cs), c.key);
    if i < |cs| && cs[i].key == c.key then cs[i := c] else cs[..i] + [c] + cs[i..]
  }

  function DropFirstKeyOf(cs: seq<Child>): seq<Child>
    requires |cs| > 0
  {
    cs[0 := Child([], cs[0].page, cs[0].sum)]
  }

  function PutLeaf(pageSize: nat, w: Work, id: PageId, p: Page, k: Key, v: Value): PutResult
    requires p.LeafPage?
  {
    var t := Erase(p);
    if LeafFits(t, k, v) then Settle(w, id, LeafOf(LeafPut(t, k, v)))
    else
      match SplitLeaf(pageSize, Upsert(p.entries, k, v))
      case Split(l, sep, r) => SettleSplit(w, id, LeafOf(l), sep, LeafOf(r))
      case Overflow => Overflowed
  }

  /** The parent's part, once the child at `i` has been rewritten. */
  function PutBranch(pageSize: nat, id: PageId, cs: seq<Child>, i: nat, child: PutResult): PutResult
    requires i < |cs|
  {
    match child
    case Overflowed => Overflowed
    case Starved => Starved
    case Done(w, cid, csum, sibling) =>
      var replaced := cs[i := Child(cs[i].key, cid, csum)];
      match sibling
      case None => Settle(w, id, BranchPage(replaced))
      case Some(s) =>
        var more := AddChild(replaced, Child(s.key, s.id, s.sum));
        if BranchFits(pageSize, EraseAll(replaced), s.key) then Settle(w, id, BranchPage(more))
        else SplitChildren(pageSize, w, id, more)
  }

  function SplitChildren(pageSize: nat, w: Work, id: PageId, cs: seq<Child>): PutResult {
    if SplitBranch(pageSize, EraseAll(cs)).Overflow? then Overflowed
    else
      var mid := |cs| / 2;
      SettleSplit(w, id, BranchPage(DropFirstKeyOf(cs[..mid])), cs[mid].key, BranchPage(DropFirstKeyOf(cs[mid..])))
  }

  /** `insert_recursive` on the node at `id`, whose checksum is `sum`. */
  function Put(pageSize: nat, w: Work, id: PageId, sum: Checksum, k: Key, v: Value): PutResult
    decreases sum
  {
    if id !in w.dirty && w.spare == [] then Starved
    else
      var w1, nid := Cow(w, id, sum.page), CowId(w, id);
      match sum.page
      case LeafPage(_, _) => PutLeaf(pageSize, w1, nid, sum.page, k, v)
      case BranchPage(cs) =>
        if cs == [] then Overflowed
        else
          var i := ChildIndex(EraseAll(cs), k);
          PutBranch(pageSize, nid, cs, i, Put(pageSize, w1, cs[i].page, cs[i].sum, k, v))
      case JunkPage(_) => Overflowed
  }

  /** `Tree::insert`: rewrite from the root, and grow a new root if the old one split. */
  function PutRoot(pageSize: nat, w: Work, id: PageId, sum: Checksum, k: Key, v: Value): PutResult {
    match Put(pageSize, w, id, sum, k, v)
    case Overflowed => Overflowed
    case Starved => Starved
    case Done(w1, lid, lsum, sibling) =>
      match sibling
      case None => Done(w1, lid, lsum, None)
      case Some(s) =>
        var root := BranchPage([Child([], lid, lsum), Child(s.key, s.id, s.sum)]);
        if w1.spare == [] then Starved
        else if !BranchBuilds(pageSize, Erase(root).kids) then Overflowed
        else Done(Work(w1.dirty[w1.spare[0] := root], w1.freed, w1.spare[1..]), w1.spare[0], Sum(root), None)
  }
}
