/** What holds in every reachable state of the database, and why each step keeps it. */
module KvDbInvariant {
  import opened Collections
  import opened KvKeys
  import opened KvTree
  import opened KvPages
  import opened KvLedger
  import opened KvTransaction
  import opened KvAllocator
  import opened KvDb

  // ----- Page sets -----

  ghost function SlotIds(slot: Slot): set<PageId> {
    Ids(slot.root, slot.sum.page)
  }

  /** The pages of the committed tree. */
  ghost function Committed(h: Header): set<PageId> {
    SlotIds(Active(h))
  }

  ghost predicate Published(w: Writer) {
    w.Busy? && w.phase.Freeing?
  }

  /** The pages that the running transaction has taken for itself. */
  ghost function Held(w: Writer): set<PageId> {
    if w.Idle? || Published(w) then {} else w.work.dirty.Keys + Elems(w.work.spare)
  }

  /** Pages that a published transaction has replaced but not queued yet. */
  ghost function Pending(w: Writer): set<PageId> {
    if Published(w) && w.phase.queued <= |w.work.freed| then Elems(w.work.freed[w.phase.queued..]) else {}
  }

  /** Pages that were replaced after transaction `tx` and are not reused yet. */
  ghost function QueuedAfter(a: Allocator, tx: nat): set<PageId> {
    set f | f in a.queue && f.tx > tx :: f.page
  }

  ghost function ReaderIds(r: Reader): set<PageId> {
    Ids(r.root, r.sum.page)
  }

  ghost function PairsAt(sum: Checksum): seq<Pair> {
    Pairs(Erase(sum.page))
  }

  // ----- The invariant -----

  /** Pages of the file that are not the header page. */
  ghost predicate Below(ids: set<PageId>, next: PageId) {
    forall x :: x in ids ==> HEADER_PAGE < x < next
  }

  ghost predicate SlotOk(slot: Slot, reserved: nat) {
    Shape(slot.root, slot.sum) && slot.next <= reserved && Below(SlotIds(slot), slot.next)
  }

  ghost predicate SlotsOk(h: Header, a: Allocator) {
    SlotOk(Active(h), a.reserved) && SlotOk(Inactive(h), a.reserved) && Active(h).next <= a.next
  }

  ghost predicate CommittedOk(disk: Store, unsynced: set<PageId>, h: Header) {
    Verified(disk, Active(h).root, Active(h).sum) && Committed(h) !! unsynced
  }

  /** The header page has the slots of the header in memory. After a recovery that fell back to the older
      slot it still names the other one as active. */
  ghost predicate HeaderKnown(durable: Header, h: Header) {
    durable == h || durable == Switch(h)
  }

  ghost predicate HeadersOk(onDisk: Header, durable: Header, h: Header, w: Writer, next: PageId) {
    if w.Busy? && w.phase.HeaderWritten? then
      HeaderKnown(durable, h) && onDisk == WithCommit(h, Slot(w.root, w.sum, w.tx, next))
    else if w.Busy? && w.phase.Synced? then
      durable == onDisk == WithCommit(h, Slot(w.root, w.sum, w.tx, next))
    else
      HeaderKnown(durable, h) && onDisk == durable
  }

  /** Page ids are conserved: the committed tree, the writer's pages, the pages waiting to be queued, the
      queue, and the ids never used are pairwise disjoint. */
  ghost predicate PagesOk(h: Header, a: Allocator, w: Writer) {
    && AllocatorOk(a, Active(h).tx)
    && Apart(Committed(h), Queued(a), Held(w), Pending(w))
    && Below(Held(w), a.next) && Below(Pending(w), a.next)
  }

  ghost predicate Apart(a: set<PageId>, b: set<PageId>, c: set<PageId>, d: set<PageId>) {
    a !! b && a !! c && a !! d && b !! c && b !! d && c !! d
  }

  /** A reader's tree is intact, and what is no longer committed of it is protected by the queue. */
  ghost predicate ReaderOk(disk: Store, h: Header, a: Allocator, w: Writer, r: Reader) {
    && Verified(disk, r.root, r.sum) && r.tx <= Active(h).tx
    && (r.tx == Active(h).tx ==> r.root == Active(h).root && r.sum == Active(h).sum)
    && ReaderIds(r) <= Committed(h) + QueuedAfter(a, r.tx) + Pending(w)
  }

  ghost predicate ReadersOk(disk: Store, h: Header, a: Allocator, w: Writer, readers: map<nat, Reader>) {
    forall rid {:trigger readers[rid]} :: rid in readers ==> ReaderOk(disk, h, a, w, readers[rid])
  }

  ghost function ReadersOf(readers: map<nat, Reader>, tx: nat): set<nat> {
    set rid | rid in readers && readers[rid].tx == tx
  }

  ghost predicate TrackerOk(tracker: Tracker, readers: map<nat, Reader>) {
    && (forall rid :: rid in readers ==> readers[rid].tx in tracker)
    && (forall tx :: tx in tracker ==> tracker[tx] == |ReadersOf(readers, tx)| > 0)
  }

  ghost predicate OnDisk(disk: Store, dirty: Store, ids: set<PageId>) {
    forall x :: x in ids && x in dirty ==> x in disk && disk[x] == dirty[x]
  }

  ghost predicate WriterOk(disk: Store, unsynced: set<PageId>, h: Header, w: Writer) {
    match w
    case Idle => unsynced == {}
    case Busy(phase, tx, root, sum, work, ops) =>
      if phase.Freeing? then
        && tx == Active(h).tx && root == Active(h).root && sum == Active(h).sum
        && phase.queued <= |work.freed| && NoRepeats(work.freed) && unsynced == {}
      else
        && tx == Active(h).tx + 1 && WorkOk(disk, Committed(h), work, root, sum)
        && PairsAt(sum) == UpsertAll(PairsAt(Active(h).sum), ops)
        && WrittenOk(disk, unsynced, phase, work.dirty)
  }

  /** How far the transaction's pages have been written and synced. */
  ghost predicate WrittenOk(disk: Store, unsynced: set<PageId>, phase: Phase, dirty: Store) {
    match phase
    case Inserting => unsynced == {}
    case Flushing(written) => unsynced == written <= dirty.Keys && OnDisk(disk, dirty, written)
    case HeaderWritten => unsynced == dirty.Keys && OnDisk(disk, dirty, dirty.Keys)
    case Synced => unsynced == {} && OnDisk(disk, dirty, dirty.Keys)
    case Freeing(_) => true
  }

  ghost predicate Inv(s: Db) {
    && SlotsOk(s.header, s.alloc)
    && CommittedOk(s.disk, s.unsynced, s.header)
    && HeadersOk(s.onDisk, s.durable, s.header, s.writer, s.alloc.next)
    && PagesOk(s.header, s.alloc, s.writer)
    && ReadersOk(s.disk, s.header, s.alloc, s.writer, s.readers)
    && TrackerOk(s.tracker, s.readers)
    && WriterOk(s.disk, s.unsynced, s.header, s.writer)
  }

  // ----- Readers -----

  lemma {:induction false} TrackerEnter(tracker: Tracker, readers: map<nat, Reader>, rid: nat, r: Reader)
    requires TrackerOk(tracker, readers) && rid !in readers
    ensures TrackerOk(Enter(tracker, r.tx), readers[rid := r])
  {
    var more := readers[rid := r];
    assert ReadersOf(more, r.tx) == ReadersOf(readers, r.tx) + {rid};
    forall u | u != r.tx
      ensures ReadersOf(more, u) == ReadersOf(readers, u)
    {
    }
    if r.tx !in tracker {
      assert ReadersOf(readers, r.tx) == {};
    }
  }

  lemma {:induction false} TrackerLeave(tracker: Tracker, readers: map<nat, Reader>, rid: nat)
    requires TrackerOk(tracker, readers) && rid in readers
    ensures TrackerOk(Leave(tracker, readers[rid].tx), readers - {rid})
  {
    var tx, fewer := readers[rid].tx, readers - {rid};
    assert ReadersOf(fewer, tx) == ReadersOf(readers, tx) - {rid} && rid in ReadersOf(readers, tx);
    forall u | u != tx
      ensures ReadersOf(fewer, u) == ReadersOf(readers, u)
    {
    }
    forall r | r in fewer
      ensures fewer[r].tx in Leave(tracker, tx)
    {
      if fewer[r].tx == tx {
        assert r in ReadersOf(fewer, tx);
        assert |ReadersOf(readers, tx)| == |ReadersOf(fewer, tx)| + 1;
      }
    }
  }

  lemma {:induction false} BeginReadInv(s: Db, t: Db, rid: nat)
    requires Inv(s) && BeginRead(s, t, rid)
    ensures Inv(t)
  {
    var a := Active(s.header);
    TrackerEnter(s.tracker, s.readers, rid, Reader(a.root, a.tx, a.sum));
  }

  lemma {:induction false} EndReadInv(s: Db, t: Db, rid: nat)
    requires Inv(s) && EndRead(s, t, rid)
    ensures Inv(t)
  {
    TrackerLeave(s.tracker, s.readers, rid);
  }

  // ----- The writer before the commit -----

  lemma {:induction false} SamePending(disk: Store, h: Header, a: Allocator, w: Writer, w': Writer,
                                       readers: map<nat, Reader>)
    requires ReadersOk(disk, h, a, w, readers) && Pending(w) <= Pending(w')
    ensures ReadersOk(disk, h, a, w', readers)
  {
  }

  lemma {:induction false} StartWork(disk: Store, id: PageId, sum: Checksum)
    requires Sound(disk, id, sum)
    ensures WorkOk(disk, Ids(id, sum.page), Work(map[], [], []), id, sum)
  {
    assert View(disk, Work(map[], [], [])) == disk;
  }

  lemma {:induction false} BeginWriteInv(s: Db, t: Db)
    requires Inv(s) && BeginWrite(s, t)
    ensures Inv(t)
  {
    var a := Active(s.header);
    StartWork(s.disk, a.root, a.sum);
    assert UpsertAll(PairsAt(a.sum), []) == PairsAt(a.sum);
    assert Held(t.writer) == {} == Held(s.writer) && Pending(t.writer) == {} == Pending(s.writer);
    assert WriterOk(t.disk, t.unsynced, t.header, t.writer);
    SamePending(s.disk, s.header, s.alloc, s.writer, t.writer, s.readers);
  }

  lemma {:induction false} AbortInv(s: Db, t: Db)
    requires Inv(s) && Abort(s, t)
    ensures Inv(t)
  {
    SamePending(s.disk, s.header, s.alloc, s.writer, t.writer, s.readers);
  }

  lemma {:induction false} StartFlushInv(s: Db, t: Db)
    requires Inv(s) && StartFlush(s, t)
    ensures Inv(t)
  {
    SamePending(s.disk, s.header, s.alloc, s.writer, t.writer, s.readers);
  }

  lemma {:induction false} InsertPairInv(pageSize: nat, s: Db, t: Db, k: Key, v: Value)
    requires Inv(s) && InsertPair(pageSize, s, t, k, v)
    ensures Inv(t)
  {
    var w := s.writer;
    InsertKeepsWork(s.disk, Committed(s.header), pageSize, w.work, w.root, w.sum, k, v);
    assert (w.ops + [Pair(k, v)])[..|w.ops|] == w.ops;
    SamePending(s.disk, s.header, s.alloc, s.writer, t.writer, s.readers);
  }

  lemma {:induction false} QueuedAfterAllocate(a: Allocator, tracker: Tracker, oldest: Option<nat>, tx: nat, r: nat)
    requires AllocatorOk(a, tx) && IsOldest(tracker, oldest) && r in tracker
    ensures QueuedAfter(Allocate(a, oldest), r) == QueuedAfter(a, r)
  {
    if Reusable(a, oldest) {
      var front := a.queue[0];
      ReuseIsSafe(a, tracker, oldest, tx, front);
      assert a.queue == [front] + Allocate(a, oldest).queue;
    }
  }

  lemma {:induction false} SpareGrows(disk: Store, base: set<PageId>, w: Work, id: PageId, sum: Checksum, x: PageId)
    requires WorkOk(disk, base, w, id, sum) && x !in w.dirty && x !in w.spare && x !in base
    ensures WorkOk(disk, base, w.(spare := w.spare + [x]), id, sum)
  {
    ElemsConcat(w.spare, [x]);
    NoRepeatsConcat(w.spare, [x]);
    assert Elems([x]) == {x};
  }

  lemma {:induction false} TakeIdPages(s: Db, t: Db, oldest: Option<nat>)
    requires PagesOk(s.header, s.alloc, s.writer) && SlotsOk(s.header, s.alloc) && TakeId(s, t, oldest)
    ensures PagesOk(t.header, t.alloc, t.writer) && SlotsOk(t.header, t.alloc)
    ensures var x := AllocatedId(s.alloc, oldest); x !in Committed(s.header) && x !in Held(s.writer)
  {
    var x, w := AllocatedId(s.alloc, oldest), s.writer;
    AllocateOk(s.alloc, s.tracker, oldest, Active(s.header).tx);
    assert x !in Committed(s.header) && x !in Held(w);
    ElemsConcat(w.work.spare, [x]);
    assert Held(t.writer) == Held(w) + {x} by { assert Elems([x]) == {x}; }
  }

  lemma {:induction false} TakeIdReaders(s: Db, t: Db, oldest: Option<nat>)
    requires AllocatorOk(s.alloc, Active(s.header).tx) && TakeId(s, t, oldest) && TrackerOk(s.tracker, s.readers)
    requires ReadersOk(s.disk, s.header, s.alloc, s.writer, s.readers)
    ensures ReadersOk(t.disk, t.header, t.alloc, t.writer, t.readers)
  {
    forall rid | rid in s.readers
      ensures ReaderOk(t.disk, t.header, t.alloc, t.writer, s.readers[rid])
    {
      QueuedAfterAllocate(s.alloc, s.tracker, oldest, Active(s.header).tx, s.readers[rid].tx);
    }
  }

  lemma {:induction false} TakeIdInv(s: Db, t: Db, oldest: Option<nat>)
    requires Inv(s) && TakeId(s, t, oldest)
    ensures Inv(t)
  {
    var w := s.writer;
    TakeIdPages(s, t, oldest);
    TakeIdReaders(s, t, oldest);
    SpareGrows(s.disk, Committed(s.header), w.work, w.root, w.sum, AllocatedId(s.alloc, oldest));
  }

  // ----- The commit -----

  /** A page of the transaction belongs to no reader's tree. */
  lemma {:induction false} ReaderKeepsPages(s: Db, r: Reader)
    requires PagesOk(s.header, s.alloc, s.writer) && ReaderOk(s.disk, s.header, s.alloc, s.writer, r)
    ensures ReaderIds(r) !! Held(s.writer)
  {
    assert QueuedAfter(s.alloc, r.tx) <= Queued(s.alloc);
  }

  lemma {:induction false} FlushPageReaders(s: Db, t: Db, x: PageId)
    requires PagesOk(s.header, s.alloc, s.writer) && FlushPage(s, t, x)
    requires ReadersOk(s.disk, s.header, s.alloc, s.writer, s.readers)
    ensures ReadersOk(t.disk, t.header, t.alloc, t.writer, t.readers)
  {
    forall rid | rid in s.readers
      ensures ReaderOk(t.disk, t.header, t.alloc, t.writer, s.readers[rid])
    {
      var r := s.readers[rid];
      ReaderKeepsPages(s, r);
      VerifiedFrame(s.disk, t.disk, r.root, r.sum);
    }
  }

  lemma {:induction false} FlushPageInv(s: Db, t: Db, x: PageId)
    requires Inv(s) && FlushPage(s, t, x)
    ensures Inv(t)
  {
    var a, w := Active(s.header), s.writer;
    VerifiedFrame(s.disk, t.disk, a.root, a.sum);
    assert View(t.disk, w.work) == View(s.disk, w.work);
    FlushPageReaders(s, t, x);
  }

  lemma {:induction false} WriteHeaderInv(s: Db, t: Db)
    requires Inv(s) && WriteHeader(s, t)
    ensures Inv(t)
  {
    SamePending(s.disk, s.header, s.alloc, s.writer, t.writer, s.readers);
  }

  lemma {:induction false} SyncInv(s: Db, t: Db)
    requires Inv(s) && Sync(s, t)
    ensures Inv(t)
  {
    SamePending(s.disk, s.header, s.alloc, s.writer, t.writer, s.readers);
  }

  /** The slot that a running transaction would publish. */
  lemma {:induction false} InFlightSlotOk(s: Db)
    requires Inv(s) && s.writer.Busy? && !s.writer.phase.Freeing?
    ensures SlotOk(SlotOf(s), s.alloc.reserved)
    ensures SlotIds(SlotOf(s)) == Committed(s.header) - Elems(s.writer.work.freed) + s.writer.work.dirty.Keys
  {
  }

  lemma {:induction false} PublishPages(s: Db, t: Db)
    requires Inv(s) && Publish(s, t)
    ensures PagesOk(t.header, t.alloc, t.writer)
    ensures Committed(s.header) <= Committed(t.header) + Pending(t.writer)
  {
    InFlightSlotOk(s);
    var freed := s.writer.work.freed;
    assert freed[0..] == freed;
    assert Pending(t.writer) == Elems(freed) && Held(t.writer) == {};
  }

  lemma {:induction false} PublishReaders(s: Db, t: Db)
    requires Inv(s) && Publish(s, t)
    ensures ReadersOk(t.disk, t.header, t.alloc, t.writer, t.readers)
  {
    PublishPages(s, t);
    forall rid | rid in s.readers
      ensures ReaderOk(t.disk, t.header, t.alloc, t.writer, s.readers[rid])
    {
      assert ReaderOk(s.disk, s.header, s.alloc, s.writer, s.readers[rid]);
      assert Pending(s.writer) == {};
    }
  }

  lemma {:induction false} PublishInv(s: Db, t: Db)
    requires Inv(s) && Publish(s, t)
    ensures Inv(t)
  {
    PublishPages(s, t);
    PublishReaders(s, t);
    InFlightSlotOk(s);
    assert View(s.disk, s.writer.work) == s.disk;
    assert Active(t.header) == SlotOf(s) && Inactive(t.header) == Active(s.header);
  }

  lemma {:induction false} NextFreed(freed: seq<PageId>, n: nat)
    requires n < |freed| && NoRepeats(freed)
    ensures Elems(freed[n..]) == Elems(freed[n + 1..]) + {freed[n]} && freed[n] !in Elems(freed[n + 1..])
  {
    assert freed[n..] == [freed[n]] + freed[n + 1..];
    ElemsConcat([freed[n]], freed[n + 1..]);
  }

  lemma {:induction false} FreePageInv(s: Db, t: Db)
    requires Inv(s) && FreePage(s, t)
    ensures Inv(t)
  {
    var freed, n, tx := s.writer.work.freed, s.writer.phase.queued, s.writer.tx;
    var x := freed[n];
    NextFreed(freed, n);
    assert Pending(s.writer) == Pending(t.writer) + {x};
    ReleaseOk(s.alloc, x, tx);
    forall rid | rid in s.readers
      ensures ReaderOk(t.disk, t.header, t.alloc, t.writer, s.readers[rid])
    {
      FreePageReader(s, t, s.readers[rid], x);
    }
  }

  lemma {:induction false} FreePageReader(s: Db, t: Db, r: Reader, x: PageId)
    requires Inv(s) && FreePage(s, t) && ReaderOk(s.disk, s.header, s.alloc, s.writer, r)
    requires x == s.writer.work.freed[s.writer.phase.queued] && Pending(s.writer) == Pending(t.writer) + {x}
    ensures ReaderOk(t.disk, t.header, t.alloc, t.writer, r)
  {
    var q := Freed(x, s.writer.tx);
    assert t.alloc.queue == s.alloc.queue + [q] && q in t.alloc.queue;
    assert QueuedAfter(s.alloc, r.tx) <= QueuedAfter(t.alloc, r.tx);
    if r.tx < s.writer.tx {
      assert x in QueuedAfter(t.alloc, r.tx);
    } else {
      assert ReaderIds(r) == Committed(s.header);
    }
  }

  lemma {:induction false} EndWriteInv(s: Db, t: Db)
    requires Inv(s) && EndWrite(s, t)
    ensures Inv(t)
  {
    assert Pending(s.writer) == {};
    SamePending(s.disk, s.header, s.alloc, s.writer, t.writer, s.readers);
  }

  // ----- Crash and recovery -----

  /** The committed tree survives every crash. */
  lemma {:induction false} CommittedSurvives(s: Db, disk: Store, h: Header)
    requires CommittedOk(s.disk, s.unsynced, s.header) && Survives(s, Torn, disk, h)
    ensures Verified(disk, Active(s.header).root, Active(s.header).sum)
  {
    VerifiedFrame(s.disk, disk, Active(s.header).root, Active(s.header).sum);
  }

  /** The headers that a crash can leave. */
  lemma {:induction false} SurvivingHeader(s: Db, disk: Store, h: Header)
    requires Inv(s) && Survives(s, Torn, disk, h)
    ensures h == s.header || h == Switch(s.header)
         || (s.writer.Busy? && (s.writer.phase.HeaderWritten? || s.writer.phase.Synced?)
             && h == WithCommit(s.header, SlotOf(s)))
  {
  }

  lemma {:induction false} RecoverySucceeds(s: Db, disk: Store, h: Header)
    requires Inv(s) && Survives(s, Torn, disk, h)
    ensures Recover(disk, h).Some?
    ensures var a := Active(Recover(disk, h).value);
            a == Active(s.header) || (a == Active(h) && Verified(disk, a.root, a.sum))
  {
    SurvivingHeader(s, disk, h);
    CommittedSurvives(s, disk, h);
  }

  lemma {:induction false} CrashInv(s: Db, t: Db, disk: Store, h: Header)
    requires Inv(s) && Crash(s, t, disk, h)
    ensures Inv(t)
  {
    SurvivingHeader(s, disk, h);
    CommittedSurvives(s, disk, h);
    if s.writer.Busy? && !s.writer.phase.Freeing? {
      InFlightSlotOk(s);
    }
    ReopenedInv(s, disk, h, t.header);
  }

  lemma {:induction false} ReopenedInv(s: Db, disk: Store, h: Header, recovered: Header)
    requires SlotOk(Active(recovered), s.alloc.reserved) && SlotOk(Inactive(recovered), s.alloc.reserved)
    requires HeaderKnown(h, recovered) && Verified(disk, Active(recovered).root, Active(recovered).sum)
    ensures Inv(Reopened(s, disk, h, recovered))
  {
    var a := Active(recovered);
    assert a.root in SlotIds(a);
  }

  lemma {:induction false} InitialInv(pageSize: nat, s: Db)
    requires Initial(pageSize, s)
    ensures Inv(s)
  {
    var a := Active(s.header);
    assert Ordered(Erase(a.sum.page), 0, [], None);
    assert SlotIds(a) == {INITIAL_ROOT};
  }
}
