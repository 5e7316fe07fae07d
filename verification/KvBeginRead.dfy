/** `begin_read` in the two steps in which the program takes it: it reads the snapshot, and then registers the
    reader. A reader that is between the two steps is not protected by the queue of freed pages. */
module KvBeginRead {
  import opened Collections
  import opened KvKeys
  import opened KvTree
  import opened KvTreeProofs
  import opened KvPages
  import opened KvAllocator
  import opened KvDb
  import opened KvDbInvariant
  import opened KvDbTheorems
  import opened KvExampleSteps

  /** The database, and the readers that have read the snapshot but are not registered yet. */
  datatype Hall = Hall(db: Db, waiting: map<nat, Reader>)

  datatype Move =
    | Inner(event: Event)
    | Load(rid: nat)
    | Register(rid: nat)

  function Snapshot(s: Db): Reader {
    var a := Active(s.header);
    Reader(a.root, a.tx, a.sum)
  }

  function Registered(s: Db, rid: nat, r: Reader): Db {
    s.(tracker := Enter(s.tracker, r.tx), readers := s.readers[rid := r])
  }

  ghost predicate Moves(pageSize: nat, s: Hall, t: Hall, m: Move) {
    match m
    case Inner(e) =>
      && !e.BeginReadEvent? && Next(pageSize, s.db, t.db, e)
      && t.waiting == if e.CrashEvent? then map[] else s.waiting
    case Load(rid) =>
      rid !in s.waiting && rid !in s.db.readers && t == s.(waiting := s.waiting[rid := Snapshot(s.db)])
    case Register(rid) =>
      rid in s.waiting && t == Hall(Registered(s.db, rid, s.waiting[rid]), s.waiting - {rid})
  }

  ghost predicate HallRun(pageSize: nat, states: seq<Hall>, moves: seq<Move>) {
    && |states| == |moves| + 1 && Initial(pageSize, states[0].db) && states[0].waiting == map[]
    && forall i {:trigger MoveAt(pageSize, states, moves, i)} :: 0 <= i < |moves| ==> MoveAt(pageSize, states, moves, i)
  }

  ghost predicate MoveAt(pageSize: nat, states: seq<Hall>, moves: seq<Move>, i: nat)
    requires |states| == |moves| + 1 && i < |moves|
  {
    Moves(pageSize, states[i], states[i + 1], moves[i])
  }

  // ----- Protection -----

  ghost predicate Protected(s: Db, r: Reader) {
    ReaderOk(s.disk, s.header, s.alloc, s.writer, r)
  }

  ghost predicate WaiterOk(s: Hall, rid: nat)
    requires rid in s.waiting
  {
    rid !in s.db.readers && Protected(s.db, s.waiting[rid])
  }

  /** The database is in order, and every reader, registered or not, has its tree protected. */
  ghost predicate HallInv(s: Hall) {
    Inv(s.db) && forall rid {:trigger WaiterOk(s, rid)} :: rid in s.waiting ==> WaiterOk(s, rid)
  }

  /** An allocation hands out a page of a snapshot whose reader is not registered yet. */
  ghost predicate Disturbs(s: Hall, m: Move) {
    && m.Inner? && m.event.TakeIdEvent?
    && exists rid :: rid in s.waiting && AllocatedId(s.db.alloc, m.event.oldest) in ReaderIds(s.waiting[rid])
  }

  lemma {:induction false} RegisteredInv(s: Db, rid: nat, r: Reader)
    requires Inv(s) && rid !in s.readers && Protected(s, r)
    ensures Inv(Registered(s, rid, r))
  {
    TrackerEnter(s.tracker, s.readers, rid, r);
  }

  /** Steps that are not allocations protect a reader whether it is registered or not. */
  lemma {:induction false} StepProtects(pageSize: nat, s: Db, t: Db, e: Event, rid: nat, r: Reader)
    requires Inv(s) && Next(pageSize, s, t, e) && rid !in s.readers && Protected(s, r)
    requires !e.TakeIdEvent? && !e.CrashEvent? && !e.BeginReadEvent?
    ensures Protected(t, r) && rid !in t.readers
  {
    if !e.EndReadEvent? {
      RegisteredInv(s, rid, r);
      StepAfterRegister(pageSize, s, t, e, rid, r);
      StepInv(pageSize, Registered(s, rid, r), Registered(t, rid, r), e);
      assert Registered(t, rid, r).readers[rid] == r;
    }
  }

  /** A step of the writer or of the disk is the same step when one more reader is registered. */
  lemma {:induction false} StepAfterRegister(pageSize: nat, s: Db, t: Db, e: Event, rid: nat, r: Reader)
    requires Next(pageSize, s, t, e) && rid !in s.readers
    requires !e.TakeIdEvent? && !e.CrashEvent? && !e.BeginReadEvent? && !e.EndReadEvent?
    ensures Next(pageSize, Registered(s, rid, r), Registered(t, rid, r), e)
    ensures t.readers == s.readers
  {
  }

  /** An allocation keeps a reader protected exactly when it does not hand out a page of its tree. */
  lemma {:induction false} TakeProtects(s: Db, t: Db, oldest: Option<nat>, r: Reader)
    requires Inv(s) && TakeId(s, t, oldest) && Protected(s, r)
    ensures Protected(t, r) <==> AllocatedId(s.alloc, oldest) !in ReaderIds(r)
  {
    var x := AllocatedId(s.alloc, oldest);
    TakeIdInv(s, t, oldest);
    QueuedAfterTaken(s.alloc, oldest, Active(s.header).tx, r.tx);
    ElemsConcat(s.writer.work.spare, [x]);
    assert x in Held(t.writer) by { assert x in Elems([x]); }
    assert QueuedAfter(t.alloc, r.tx) <= Queued(t.alloc);
  }

  lemma {:induction false} QueuedAfterTaken(a: Allocator, oldest: Option<nat>, tx: nat, r: nat)
    requires AllocatorOk(a, tx)
    ensures QueuedAfter(a, r) - {AllocatedId(a, oldest)} <= QueuedAfter(Allocate(a, oldest), r) <= QueuedAfter(a, r)
  {
    if Reusable(a, oldest) {
      assert a.queue == [a.queue[0]] + Allocate(a, oldest).queue;
    }
  }

  /** A step leaves every reader protected exactly when it hands out no page of a waiting reader. */
  lemma {:induction false} MoveIff(pageSize: nat, s: Hall, t: Hall, m: Move)
    requires HallInv(s) && Moves(pageSize, s, t, m)
    ensures HallInv(t) <==> !Disturbs(s, m)
  {
    match m
    case Load(rid) => LoadInv(s, t, rid);
    case Register(rid) => RegisterInv(s, t, rid);
    case Inner(e) =>
      StepInv(pageSize, s.db, t.db, e);
      if e.TakeIdEvent? {
        TakeIff(s, t, e.oldest);
      } else if !e.CrashEvent? {
        forall rid | rid in t.waiting
          ensures WaiterOk(t, rid)
        {
          assert WaiterOk(s, rid);
          StepProtects(pageSize, s.db, t.db, e, rid, s.waiting[rid]);
        }
      }
  }

  lemma {:induction false} LoadInv(s: Hall, t: Hall, rid: nat)
    requires HallInv(s) && Moves(0, s, t, Load(rid))
    ensures HallInv(t)
  {
    forall x | x in t.waiting
      ensures WaiterOk(t, x)
    {
      if x != rid {
        assert WaiterOk(s, x);
      }
    }
  }

  lemma {:induction false} RegisterInv(s: Hall, t: Hall, rid: nat)
    requires HallInv(s) && Moves(0, s, t, Register(rid))
    ensures HallInv(t)
  {
    assert WaiterOk(s, rid);
    RegisteredInv(s.db, rid, s.waiting[rid]);
    forall x | x in t.waiting
      ensures WaiterOk(t, x)
    {
      assert WaiterOk(s, x);
    }
  }

  lemma {:induction false} TakeIff(s: Hall, t: Hall, oldest: Option<nat>)
    requires HallInv(s) && TakeId(s.db, t.db, oldest) && t.waiting == s.waiting
    ensures HallInv(t) <==> !Disturbs(s, Inner(TakeIdEvent(oldest)))
  {
    TakeIdInv(s.db, t.db, oldest);
    forall rid | rid in s.waiting
      ensures WaiterOk(t, rid) <==> AllocatedId(s.db.alloc, oldest) !in ReaderIds(s.waiting[rid])
    {
      assert WaiterOk(s, rid);
      TakeProtects(s.db, t.db, oldest, s.waiting[rid]);
    }
  }

  ghost predicate Undisturbed(states: seq<Hall>, moves: seq<Move>, n: nat)
    requires |states| == |moves| + 1 && n <= |moves|
  {
    forall i {:trigger Disturbs(states[i], moves[i])} :: 0 <= i < n ==> !Disturbs(states[i], moves[i])
  }

  ghost predicate InOrder(states: seq<Hall>, n: nat)
    requires n < |states|
  {
    forall i {:trigger HallInv(states[i])} :: 0 <= i <= n ==> HallInv(states[i])
  }

  lemma {:induction false} MoveAtIff(pageSize: nat, states: seq<Hall>, moves: seq<Move>, i: nat)
    requires HallRun(pageSize, states, moves) && i < |moves| && HallInv(states[i])
    ensures HallInv(states[i + 1]) <==> !Disturbs(states[i], moves[i])
  {
    assert MoveAt(pageSize, states, moves, i);
    MoveIff(pageSize, states[i], states[i + 1], moves[i]);
  }

  lemma {:induction false} StartInOrder(pageSize: nat, states: seq<Hall>, moves: seq<Move>)
    requires HallRun(pageSize, states, moves)
    ensures HallInv(states[0])
  {
    InitialInv(pageSize, states[0].db);
  }

  /** The race, exactly: all readers stay protected throughout a run if and only if no allocation of the run
      hands out a page of a snapshot between the two steps of its reader. */
  lemma {:induction false} ProtectedIff(pageSize: nat, states: seq<Hall>, moves: seq<Move>, n: nat)
    requires HallRun(pageSize, states, moves) && n <= |moves|
    ensures InOrder(states, n) <==> Undisturbed(states, moves, n)
  {
    if InOrder(states, n) {
      forall i | 0 <= i < n
        ensures !Disturbs(states[i], moves[i])
      {
        MoveAtIff(pageSize, states, moves, i);
      }
    }
    if Undisturbed(states, moves, n) {
      forall i | 0 <= i <= n
        ensures HallInv(states[i])
      {
        UndisturbedInOrder(pageSize, states, moves, n, i);
      }
    }
  }

  lemma {:induction false} UndisturbedInOrder(pageSize: nat, states: seq<Hall>, moves: seq<Move>, n: nat, i: nat)
    requires HallRun(pageSize, states, moves) && i <= n <= |moves| && Undisturbed(states, moves, n)
    ensures HallInv(states[i])
  {
    if i == 0 {
      StartInOrder(pageSize, states, moves);
    } else {
      UndisturbedInOrder(pageSize, states, moves, n, i - 1);
      MoveAtIff(pageSize, states, moves, i - 1);
    }
  }

  /** Only a page that was freed after the snapshot can be such a page: the guard of reuse looks at registered
      readers alone. */
  lemma {:induction false} DisturbingPageWasFreedLater(s: Hall, oldest: Option<nat>)
    requires HallInv(s) && Disturbs(s, Inner(TakeIdEvent(oldest)))
    ensures Reusable(s.db.alloc, oldest)
    ensures exists rid :: rid in s.waiting && s.db.alloc.queue[0].tx > s.waiting[rid].tx
  {
    var a, x := s.db.alloc, AllocatedId(s.db.alloc, oldest);
    var rid :| rid in s.waiting && x in ReaderIds(s.waiting[rid]);
    assert WaiterOk(s, rid);
    var r := s.waiting[rid];
    assert QueuedAfter(a, r.tx) <= Queued(a);
    assert Below(Committed(s.db.header), a.next);
    if Reusable(a, oldest) {
      assert a.queue[0] in a.queue;
      assert x in QueuedAfter(a, r.tx);
      var f :| f in a.queue && f.tx > r.tx && f.page == x;
      var j :| 0 <= j < |a.queue| && a.queue[j] == f;
    } else {
      QueuedBelow(a, Active(s.db.header).tx);
    }
  }

  lemma {:induction false} QueuedBelow(a: Allocator, tx: nat)
    requires AllocatorOk(a, tx)
    ensures a.next !in Queued(a)
  {
  }

  // ----- Snapshot isolation with two steps -----

  /** The reader has read its snapshot and has not ended. */
  ghost predicate Present(s: Hall, rid: nat) {
    rid in s.waiting || rid in s.db.readers
  }

  ghost function ReaderOf(s: Hall, rid: nat): Reader
    requires Present(s, rid)
  {
    if rid in s.waiting then s.waiting[rid] else s.db.readers[rid]
  }

  ghost predicate PresentThroughout(states: seq<Hall>, i: nat, j: nat, rid: nat)
    requires i <= j < |states|
  {
    forall m {:trigger Present(states[m], rid)} :: i <= m <= j ==> Present(states[m], rid)
  }

  /** No reader is both waiting and registered. */
  ghost predicate Separate(s: Hall) {
    s.waiting.Keys !! s.db.readers.Keys
  }

  lemma {:induction false} MoveKeepsReader(pageSize: nat, s: Hall, t: Hall, m: Move, rid: nat)
    requires Separate(s) && Moves(pageSize, s, t, m)
    ensures Separate(t)
    ensures Present(s, rid) && Present(t, rid) ==> ReaderOf(t, rid) == ReaderOf(s, rid)
  {
    if m.Inner? {
      NoNewReader(pageSize, s.db, t.db, m.event);
      if rid in s.db.readers && rid in t.db.readers {
        StepKeepsReader(pageSize, s.db, t.db, m.event, rid);
      }
    }
  }

  lemma {:induction false} NoNewReader(pageSize: nat, s: Db, t: Db, e: Event)
    requires Next(pageSize, s, t, e) && !e.BeginReadEvent?
    ensures t.readers.Keys <= s.readers.Keys
  {
  }

  lemma {:induction false} AlwaysSeparate(pageSize: nat, states: seq<Hall>, moves: seq<Move>, i: nat)
    requires HallRun(pageSize, states, moves) && i < |states|
    ensures Separate(states[i])
  {
    if i > 0 {
      AlwaysSeparate(pageSize, states, moves, i - 1);
      assert MoveAt(pageSize, states, moves, i - 1);
      MoveKeepsReader(pageSize, states[i - 1], states[i], moves[i - 1], 0);
    }
  }

  lemma {:induction false} PresentReader(pageSize: nat, states: seq<Hall>, moves: seq<Move>, i: nat, j: nat, rid: nat)
    requires HallRun(pageSize, states, moves) && i <= j < |states| && PresentThroughout(states, i, j, rid)
    ensures Present(states[i], rid) && Present(states[j], rid)
    ensures ReaderOf(states[j], rid) == ReaderOf(states[i], rid)
    decreases j
  {
    assert Present(states[i], rid) && Present(states[j], rid);
    if i < j {
      PresentReader(pageSize, states, moves, i, j - 1, rid);
      AlwaysSeparate(pageSize, states, moves, j - 1);
      assert MoveAt(pageSize, states, moves, j - 1);
      MoveKeepsReader(pageSize, states[j - 1], states[j], moves[j - 1], rid);
    }
  }

  lemma {:induction false} PresentIsVerified(s: Hall, rid: nat)
    requires HallInv(s) && Present(s, rid)
    ensures Verified(s.db.disk, ReaderOf(s, rid).root, ReaderOf(s, rid).sum)
  {
    if rid in s.waiting {
      assert WaiterOk(s, rid);
    }
  }

  ghost function Databases(states: seq<Hall>): (dbs: seq<Db>)
    ensures |dbs| == |states| && forall i :: 0 <= i < |states| ==> dbs[i] == states[i].db
  {
    seq(|states|, i requires 0 <= i < |states| => states[i].db)
  }

  /** Snapshot isolation when `begin_read` takes two steps: in a run without the race, every read is answered by
      the map that was committed when the reader read the snapshot. */
  lemma {:induction false} TwoStepSnapshotIsolation(pageSize: nat, states: seq<Hall>, moves: seq<Move>, i: nat, j: nat,
                                                    rid: nat, at: seq<nat>, k: Key, r: Option<Value>)
    requires HallRun(pageSize, states, moves) && 0 < i <= j < |states| && Undisturbed(states, moves, j)
    requires moves[i - 1] == Load(rid) && PresentThroughout(states, i, j, rid)
    requires Within(at, i, j) && Answers(Databases(states), at, Snapshot(states[i - 1].db).root, k, r)
    ensures r == Lookup(PairsAt(Active(states[i - 1].db.header).sum), k)
  {
    var dbs, reader := Databases(states), Snapshot(states[i - 1].db);
    assert MoveAt(pageSize, states, moves, i - 1);
    ProtectedIff(pageSize, states, moves, j);
    assert HallInv(states[i - 1]);
    forall m | i <= m <= j
      ensures Verified(dbs[m].disk, reader.root, reader.sum)
    {
      assert PresentThroughout(states, i, m, rid);
      PresentReader(pageSize, states, moves, i, m, rid);
      PresentIsVerified(states[m], rid);
    }
    AnswersAreGets(dbs, at, i, j, reader.root, reader.sum, k, r);
    var depth: nat :| Ordered(Erase(reader.sum.page), depth, [], None);
    GetIsLookup(Erase(reader.sum.page), depth, [], None, k);
  }

  // ----- A run with the race -----

  ghost predicate Stretch(states: seq<Hall>, moves: seq<Move>, s: Hall, t: Hall) {
    && |states| == |moves| + 1 && states[0] == s && states[|moves|] == t
    && forall i {:trigger MoveAt(EXAMPLE_PAGE_SIZE, states, moves, i)} :: 0 <= i < |moves| ==>
         MoveAt(EXAMPLE_PAGE_SIZE, states, moves, i)
  }

  ghost predicate Leads(s: Hall, t: Hall) {
    exists states, moves :: Stretch(states, moves, s, t)
  }

  lemma {:induction false} LeadsNowhere(s: Hall)
    ensures Leads(s, s)
  {
    assert Stretch([s], [], s, s);
  }

  lemma {:induction false} LeadsOn(s: Hall, t: Hall, m: Move, u: Hall)
    requires Leads(s, t) && Moves(EXAMPLE_PAGE_SIZE, t, u, m)
    ensures Leads(s, u)
  {
    var states, moves :| Stretch(states, moves, s, t);
    var more, ms := states + [u], moves + [m];
    forall i | 0 <= i < |ms|
      ensures MoveAt(EXAMPLE_PAGE_SIZE, more, ms, i)
    {
      if i < |moves| {
        assert MoveAt(EXAMPLE_PAGE_SIZE, states, moves, i);
      }
    }
    assert Stretch(more, ms, s, u);
  }

  /** The database takes a step while the same readers wait. */
  lemma {:induction false} LeadsInner(s: Hall, t: Db, waiting: map<nat, Reader>, e: Event, u: Db)
    requires Leads(s, Hall(t, waiting)) && Next(EXAMPLE_PAGE_SIZE, t, u, e) && !e.BeginReadEvent? && !e.CrashEvent?
    ensures Leads(s, Hall(u, waiting))
  {
    LeadsOn(s, Hall(t, waiting), Inner(e), Hall(u, waiting));
  }

  /** Two pairs in the order of their keys that fit on one page. */
  ghost predicate OnePage(a: Pair, b: Pair) {
    Less(a.key, b.key) && 88 + PairSize(a) + PairSize(b) <= EXAMPLE_PAGE_SIZE
  }

  /** A transaction with one dirty page and one freed page, once it is committed and has ended. */
  function Ended(s: Db, x: PageId, y: PageId): Db
    requires s.writer.Busy?
  {
    var h, disk := WithCommit(s.header, SlotOf(s)), s.disk + Part(s.writer.work.dirty, {x});
    Db(disk, disk, {}, h, h, h, Release(s.alloc, y, s.writer.tx), s.tracker, s.readers, Idle)
  }

  lemma {:induction false} CommitEnds(first: Hall, s: Db, waiting: map<nat, Reader>, x: PageId, y: PageId)
    requires Leads(first, Hall(s, waiting)) && InPhase(s, Inserting) && s.unsynced == {}
    requires s.writer.work.dirty.Keys == {x} && s.writer.work.freed == [y]
    ensures Leads(first, Hall(Ended(s, x, y), waiting))
  {
    var flushed := Flushed(s, {x});
    StartFlushStep(s);
    LeadsInner(first, s, waiting, StartFlushEvent, Flushed(s, {}));
    FlushStep(s, {}, x, {x});
    LeadsInner(first, Flushed(s, {}), waiting, FlushPageEvent(x), flushed);
    WriteHeaderStep(s, {x});
    LeadsInner(first, flushed, waiting, WriteHeaderEvent, Written(flushed));
    WrittenEnds(first, s, waiting, x, y);
  }

  lemma {:induction false} WrittenEnds(first: Hall, s: Db, waiting: map<nat, Reader>, x: PageId, y: PageId)
    requires s.writer.Busy? && s.writer.work.freed == [y] && Leads(first, Hall(Written(Flushed(s, {x})), waiting))
    ensures Leads(first, Hall(Ended(s, x, y), waiting))
  {
    var written := Written(Flushed(s, {x}));
    var synced := written.(synced := written.disk, unsynced := {}, durable := written.onDisk,
                           writer := written.writer.(phase := Synced));
    var published := synced.(header := synced.onDisk, writer := synced.writer.(phase := Freeing(0)));
    var freed := published.(alloc := Release(published.alloc, y, published.writer.tx),
                            writer := published.writer.(phase := Freeing(1)));
    LeadsInner(first, written, waiting, SyncEvent, synced);
    LeadsInner(first, synced, waiting, PublishEvent, published);
    LeadsInner(first, published, waiting, FreePageEvent, freed);
    assert freed.(writer := Idle) == Ended(s, x, y);
    LeadsInner(first, freed, waiting, EndWriteEvent, Ended(s, x, y));
  }

  const EARLY: nat := 7

  /** The reader that has read the snapshot of the empty database. */
  function EarlyReader(): map<nat, Reader> {
    map[EARLY := Snapshot(ExampleStart())]
  }

  function FirstDone(a: Pair): Db
    requires PairSize(a) <= EXAMPLE_PAGE_SIZE
  {
    Working(ExampleStart(), Allocator([], 3, 1026), 2, Sum(LeafWith(a)),
            Work(map[2 := LeafWith(a)], [INITIAL_ROOT], []), [a])
  }

  lemma {:induction false} FirstInserts(a: Pair)
    requires 56 + PairSize(a) <= EXAMPLE_PAGE_SIZE
    ensures Leads(Hall(ExampleStart(), map[]), Hall(FirstDone(a), EarlyReader()))
  {
    var s, w := ExampleStart(), EarlyReader();
    var start, none, two := Hall(s, map[]), Begun(s, s.alloc, []), Begun(s, Allocator([], 3, 1026), [2]);
    assert [] + [2] == [2] && [2] + [] == [2] && [] + [a] == [a];
    LeadsNowhere(start);
    LeadsOn(start, start, Load(EARLY), Hall(s, w));
    LeadsInner(start, s, w, BeginWriteEvent, none);
    assert TakeId(none, two, None);
    LeadsInner(start, none, w, TakeIdEvent(None), two);
    InsertA(a, []);
    InsertStep(s, Allocator([], 3, 1026), INITIAL_ROOT, Sum(EmptyLeaf(EXAMPLE_PAGE_SIZE)), Work(map[], [], [2]), [], a,
               2, Sum(LeafWith(a)), Work(map[2 := LeafWith(a)], [INITIAL_ROOT], []));
    LeadsInner(start, two, w, InsertEvent(a.key, a.value), FirstDone(a));
  }

  function FirstEnded(a: Pair): Db
    requires PairSize(a) <= EXAMPLE_PAGE_SIZE
  {
    Ended(FirstDone(a), 2, INITIAL_ROOT)
  }

  function LeafWithBoth(a: Pair, b: Pair): Page
    requires PairSize(a) + PairSize(b) <= EXAMPLE_PAGE_SIZE
  {
    LeafPage([a, b], EXAMPLE_PAGE_SIZE - PairSize(a) - PairSize(b))
  }

  /** The second transaction gets the root page of the snapshot and puts its own leaf there. */
  function SecondDone(a: Pair, b: Pair): Db
    requires PairSize(a) + PairSize(b) <= EXAMPLE_PAGE_SIZE
  {
    Working(FirstEnded(a), Allocator([], 3, 1026), INITIAL_ROOT, Sum(LeafWithBoth(a, b)),
            Work(map[INITIAL_ROOT := LeafWithBoth(a, b)], [2], []), [b])
  }

  lemma {:induction false} InsertBoth(a: Pair, b: Pair)
    requires OnePage(a, b)
    ensures PutRoot(EXAMPLE_PAGE_SIZE, Work(map[], [], [INITIAL_ROOT]), 2, Sum(LeafWith(a)), b.key, b.value)
         == Done(Work(map[INITIAL_ROOT := LeafWithBoth(a, b)], [2], []), INITIAL_ROOT, Sum(LeafWithBoth(a, b)), None)
  {
    assert [INITIAL_ROOT][1..] == [];
    LowerBoundIs([a], b.key, 1);
    assert Upsert([a], b.key, b.value) == [a, b];
    assert LeafFits(Erase(LeafWith(a)), b.key, b.value);
    assert map[INITIAL_ROOT := LeafWith(a)][INITIAL_ROOT := LeafWithBoth(a, b)]
           == map[INITIAL_ROOT := LeafWithBoth(a, b)];
  }

  lemma {:induction false} SecondInserts(start: Hall, w: map<nat, Reader>, a: Pair, b: Pair)
    requires OnePage(a, b) && Leads(start, Hall(FirstEnded(a), w))
    ensures Leads(start, Hall(SecondDone(a, b), w))
  {
    var s, sum := FirstEnded(a), Sum(LeafWith(a));
    var none := Working(s, s.alloc, 2, sum, Work(map[], [], []), []);
    var one := Working(s, Allocator([], 3, 1026), 2, sum, Work(map[], [], [INITIAL_ROOT]), []);
    assert [] + [INITIAL_ROOT] == [INITIAL_ROOT] && [] + [b] == [b];
    LeadsInner(start, s, w, BeginWriteEvent, none);
    assert s.alloc == Allocator([Freed(INITIAL_ROOT, 1)], 3, 1026);
    assert s.alloc.queue[1..] == [];
    assert TakeId(none, one, None);
    LeadsInner(start, none, w, TakeIdEvent(None), one);
    InsertBoth(a, b);
    InsertStep(s, Allocator([], 3, 1026), 2, sum, Work(map[], [], [INITIAL_ROOT]), [], b,
               INITIAL_ROOT, Sum(LeafWithBoth(a, b)), Work(map[INITIAL_ROOT := LeafWithBoth(a, b)], [2], []));
    LeadsInner(start, one, w, InsertEvent(b.key, b.value), SecondDone(a, b));
  }

  /** The last state: the page is written, and the early reader has registered. */
  function Raced(a: Pair, b: Pair): Hall
    requires PairSize(a) + PairSize(b) <= EXAMPLE_PAGE_SIZE
  {
    Hall(Registered(Flushed(SecondDone(a, b), {INITIAL_ROOT}), EARLY, Snapshot(ExampleStart())),
         EarlyReader() - {EARLY})
  }

  lemma {:induction false} RaceHappens(a: Pair, b: Pair)
    requires OnePage(a, b)
    ensures Leads(Hall(ExampleStart(), map[]), Raced(a, b))
  {
    var start, w, done := Hall(ExampleStart(), map[]), EarlyReader(), SecondDone(a, b);
    FirstInserts(a);
    CommitEnds(start, FirstDone(a), w, 2, INITIAL_ROOT);
    SecondInserts(start, w, a, b);
    StartFlushStep(done);
    LeadsInner(start, done, w, StartFlushEvent, Flushed(done, {}));
    FlushStep(done, {}, INITIAL_ROOT, {INITIAL_ROOT});
    LeadsInner(start, Flushed(done, {}), w, FlushPageEvent(INITIAL_ROOT), Flushed(done, {INITIAL_ROOT}));
    LeadsOn(start, Hall(Flushed(done, {INITIAL_ROOT}), w), Register(EARLY), Raced(a, b));
  }

  /** The race is real: a reader that read the snapshot of the empty database sees a pair that was committed
      after it, on a page of a transaction that is not even committed. */
  lemma {:induction false} RaceBreaksSnapshot(a: Pair, b: Pair)
    requires OnePage(a, b)
    ensures exists states, moves ::
              && HallRun(EXAMPLE_PAGE_SIZE, states, moves) && states[|moves|] == Raced(a, b)
              && Answers(Databases(states), [|moves|], Raced(a, b).db.readers[EARLY].root, a.key, Some(a.value))
    ensures Lookup(PairsAt(Raced(a, b).db.readers[EARLY].sum), a.key) == None
  {
    RaceHappens(a, b);
    var start := Hall(ExampleStart(), map[]);
    var states, moves :| Stretch(states, moves, start, Raced(a, b));
    assert Initial(EXAMPLE_PAGE_SIZE, ExampleStart());
    assert HallRun(EXAMPLE_PAGE_SIZE, states, moves);
    var dbs, n := Databases(states), |moves|;
    assert dbs[n] == Raced(a, b).db;
    assert dbs[n].disk[INITIAL_ROOT] == LeafWithBoth(a, b);
    LessIrreflexive(a.key);
    LowerBoundIs([a, b], a.key, 0);
    assert Answers(dbs, [n], INITIAL_ROOT, a.key, Some(a.value));
  }
}
