/** Steps of small transactions, for runs that show what can happen. */
module KvExampleSteps {
  import opened Collections
  import opened KvKeys
  import opened KvTree
  import opened KvPages
  import opened KvAllocator
  import opened KvDb

  const EXAMPLE_PAGE_SIZE: nat := 4096

  function ExampleStart(): Db {
    var disk := map[INITIAL_ROOT := EmptyLeaf(EXAMPLE_PAGE_SIZE)];
    var slot := Slot(INITIAL_ROOT, Sum(EmptyLeaf(EXAMPLE_PAGE_SIZE)), 0, 2);
    var h := Header(slot, slot, false);
    Db(disk, disk, {}, h, h, h, Allocator([], 2, 2), map[], map[], Idle)
  }

  /** The page that holds one pair. */
  function LeafWith(p: Pair): Page
    requires PairSize(p) <= EXAMPLE_PAGE_SIZE
  {
    LeafPage([p], EXAMPLE_PAGE_SIZE - PairSize(p))
  }

  lemma {:induction false} InsertA(a: Pair, spare: seq<PageId>)
    requires 56 + PairSize(a) <= EXAMPLE_PAGE_SIZE
    ensures PutRoot(EXAMPLE_PAGE_SIZE, Work(map[], [], [2] + spare), INITIAL_ROOT, Sum(EmptyLeaf(EXAMPLE_PAGE_SIZE)),
                    a.key, a.value)
         == Done(Work(map[2 := LeafWith(a)], [INITIAL_ROOT], spare), 2, Sum(LeafWith(a)), None)
  {
    var empty, all := EmptyLeaf(EXAMPLE_PAGE_SIZE), [2] + spare;
    assert all[0] == 2 && all[1..] == spare;
    assert LeafFits(Erase(empty), a.key, a.value);
    assert Upsert([], a.key, a.value) == [a];
    assert map[2 := empty][2 := LeafWith(a)] == map[2 := LeafWith(a)];
  }

  /** `s` while a transaction of it inserts. */
  function Working(s: Db, alloc: Allocator, root: PageId, sum: Checksum, work: Work, ops: seq<Pair>): Db {
    s.(alloc := alloc, writer := Busy(Inserting, Active(s.header).tx + 1, root, sum, work, ops))
  }

  function Part(dirty: Store, pages: set<PageId>): Store {
    map x | x in pages && x in dirty :: dirty[x]
  }

  /** `s` with some pages of its transaction written. */
  function Flushed(s: Db, pages: set<PageId>): Db
    requires s.writer.Busy?
  {
    s.(disk := s.disk + Part(s.writer.work.dirty, pages), unsynced := pages,
       writer := s.writer.(phase := Flushing(pages)))
  }

  /** The state at the start of a transaction on the empty tree. */
  function Begun(s: Db, alloc: Allocator, spare: seq<PageId>): Db {
    Working(s, alloc, INITIAL_ROOT, Sum(EmptyLeaf(EXAMPLE_PAGE_SIZE)), Work(map[], [], spare), [])
  }

  lemma {:induction false} TakeStep(s: Db, next: PageId, spare: seq<PageId>)
    requires s.tracker == map[] && next + 1 <= 1026
    ensures TakeId(Begun(s, Allocator([], next, 1026), spare), Begun(s, Allocator([], next + 1, 1026), spare + [next]),
                   None)
  {
  }

  lemma {:induction false} InsertStep(s: Db, alloc: Allocator, root: PageId, sum: Checksum, work: Work, ops: seq<Pair>,
                                      p: Pair, root': PageId, sum': Checksum, work': Work)
    requires PutRoot(EXAMPLE_PAGE_SIZE, work, root, sum, p.key, p.value) == Done(work', root', sum', None)
    ensures InsertPair(EXAMPLE_PAGE_SIZE, Working(s, alloc, root, sum, work, ops),
                       Working(s, alloc, root', sum', work', ops + [p]), p.key, p.value)
  {
  }

  lemma {:induction false} StartFlushStep(s: Db)
    requires InPhase(s, Inserting) && s.unsynced == {}
    ensures StartFlush(s, Flushed(s, {}))
  {
    assert s.disk + Part(s.writer.work.dirty, {}) == s.disk;
  }

  lemma {:induction false} FlushStep(s: Db, pages: set<PageId>, x: PageId, more: set<PageId>)
    requires s.writer.Busy? && x in s.writer.work.dirty && x !in pages && more == pages + {x}
    ensures FlushPage(Flushed(s, pages), Flushed(s, more), x)
  {
    var dirty := s.writer.work.dirty;
    assert (s.disk + Part(dirty, pages))[x := dirty[x]] == s.disk + Part(dirty, more);
  }

  function Written(s: Db): Db
    requires s.writer.Busy?
  {
    s.(onDisk := WithCommit(s.header, SlotOf(s)), writer := s.writer.(phase := HeaderWritten))
  }

  lemma {:induction false} WriteHeaderStep(s: Db, pages: set<PageId>)
    requires s.writer.Busy? && s.writer.work.dirty.Keys == pages
    ensures WriteHeader(Flushed(s, pages), Written(Flushed(s, pages)))
  {
  }
}
