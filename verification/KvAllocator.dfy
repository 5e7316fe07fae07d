/** Page ids: the queue of freed pages, and the readers that delay their reuse. */
module KvAllocator {
  import opened Collections
  import opened KvPages

  const ALLOCATION_BATCH: nat := 1024

  datatype Freed = Freed(page: PageId, tx: nat)

  datatype Allocator = Allocator(queue: seq<Freed>, next: PageId, reserved: nat)

  // ----- Active readers -----

  /** How many readers there are of each transaction; transactions without readers have no entry. */
  type Tracker = map<nat, nat>

  ghost predicate IsOldest(t: Tracker, oldest: Option<nat>) {
    match oldest
    case None => t == map[]
    case Some(o) => o in t && forall u :: u in t ==> o <= u
  }

  function Enter(t: Tracker, tx: nat): Tracker {
    t[tx := if tx in t then t[tx] + 1 else 1]
  }

  function Leave(t: Tracker, tx: nat): Tracker {
    if tx !in t then t
    else if t[tx] <= 1 then t - {tx}
    else t[tx := t[tx] - 1]
  }

  // ----- Allocation -----

  /** The page at the front of the queue may be reused: no reader is as old as the commit that freed it. */
  predicate Reusable(a: Allocator, oldest: Option<nat>) {
    a.queue != [] && (oldest.None? || a.queue[0].tx < oldest.value)
  }

  function AllocatedId(a: Allocator, oldest: Option<nat>): PageId {
    if Reusable(a, oldest) then a.queue[0].page else a.next
  }

  function Allocate(a: Allocator, oldest: Option<nat>): Allocator {
    if Reusable(a, oldest) then a.(queue := a.queue[1..])
    else Allocator(a.queue, a.next + 1, if a.next + 1 > a.reserved then a.reserved + ALLOCATION_BATCH else a.reserved)
  }

  function Release(a: Allocator, page: PageId, tx: nat): Allocator {
    a.(queue := a.queue + [Freed(page, tx)])
  }

  function ReleaseAll(a: Allocator, pages: seq<PageId>, tx: nat): Allocator {
    if pages == [] then a else Release(ReleaseAll(a, pages[..|pages| - 1], tx), pages[|pages| - 1], tx)
  }

  ghost function Queued(a: Allocator): set<PageId> {
    set f | f in a.queue :: f.page
  }

  /** No page is queued twice, the header page is never queued, the queue is ordered by transaction, and
      every page id handed out so far lies within the file. */
  ghost predicate AllocatorOk(a: Allocator, tx: nat) {
    && (forall i, j :: 0 <= i < j < |a.queue| ==> a.queue[i].page != a.queue[j].page && a.queue[i].tx <= a.queue[j].tx)
    && (forall i :: 0 <= i < |a.queue| ==> 0 < a.queue[i].page < a.next && a.queue[i].tx <= tx)
    && 0 < a.next <= a.reserved
  }

  /** No transaction that is being read is as old as the one that freed the front of the queue. */
  ghost predicate FrontFree(a: Allocator, t: Tracker) {
    a.queue != [] && forall u :: u in t ==> a.queue[0].tx < u
  }

  /** The page at the front of the queue is handed out if no reader can still see it, and a new page otherwise. It
      is inside the file, and not queued any more. */
  lemma AllocateOk(a: Allocator, t: Tracker, oldest: Option<nat>, tx: nat)
    requires AllocatorOk(a, tx) && IsOldest(t, oldest)
    ensures var id, b := AllocatedId(a, oldest), Allocate(a, oldest);
            && AllocatorOk(b, tx) && 0 < id < b.next
            && Queued(b) == Queued(a) - {id}
            && if FrontFree(a, t) then
                 id == a.queue[0].page && b == Allocator(a.queue[1..], a.next, a.reserved)
               else
                 && id == a.next && b.queue == a.queue && b.next == a.next + 1
                 && b.reserved == a.reserved + if a.next < a.reserved then 0 else 1024
  {
    var id, b := AllocatedId(a, oldest), Allocate(a, oldest);
    if Reusable(a, oldest) {
      assert a.queue == [a.queue[0]] + b.queue;
      assert a.queue[0] in a.queue;
      forall i | 0 <= i < |b.queue| ensures b.queue[i] == a.queue[i + 1] {}
    } else {
      assert id !in Queued(a);
    }
  }

  /** A page that is given out again was freed before any transaction that is still being read. */
  lemma ReuseIsSafe(a: Allocator, t: Tracker, oldest: Option<nat>, tx: nat, f: Freed)
    requires AllocatorOk(a, tx) && IsOldest(t, oldest) && f in a.queue && f.page == AllocatedId(a, oldest)
    ensures forall u :: u in t ==> f.tx < u
  {
    assert exists i :: 0 <= i < |a.queue| && a.queue[i] == f;
  }

  lemma ReleaseOk(a: Allocator, page: PageId, tx: nat)
    requires AllocatorOk(a, tx) && 0 < page < a.next && page !in Queued(a)
    ensures AllocatorOk(Release(a, page, tx), tx) && Queued(Release(a, page, tx)) == Queued(a) + {page}
    ensures Release(a, page, tx).queue[..|a.queue|] == a.queue
  {
    var b := Release(a, page, tx);
    assert forall i :: 0 <= i < |a.queue| ==> a.queue[i] in a.queue && b.queue[i] == a.queue[i];
    assert b.queue[|a.queue|] == Freed(page, tx);
    assert forall f :: f in b.queue <==> f in a.queue || f == Freed(page, tx);
  }
}
