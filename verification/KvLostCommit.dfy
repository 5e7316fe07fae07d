/** A run that shows why the exact condition for atomic commits is needed. */
module KvLostCommit {
  import opened Collections
  import opened KvKeys
  import opened KvTree
  import opened KvTreeSpace
  import opened KvPages
  import opened KvAllocator
  import opened KvDb
  import opened KvDbInvariant
  import opened KvRecovery
  import opened KvExampleSteps

  /** Two pairs in the order of their keys that fit on a page each, but not together. */
  ghost predicate TwoPages(a: Pair, b: Pair) {
    && Less(a.key, b.key)
    && 56 + PairSize(a) <= EXAMPLE_PAGE_SIZE && 56 + PairSize(b) <= EXAMPLE_PAGE_SIZE
    && 88 + PairSize(a) + PairSize(b) > EXAMPLE_PAGE_SIZE
    && 104 + |b.key| <= EXAMPLE_PAGE_SIZE
  }

  lemma TwoPagesExist() returns (a: Pair, b: Pair)
    ensures TwoPages(a, b)
  {
    a, b := Pair([1], seq(1500, i => 0)), Pair([2], seq(3000, i => 0));
  }

  /** The root above the pages 2 and 3, which hold `a` and `b`. */
  ghost function RootOf(a: Pair, b: Pair): Page
    requires TwoPages(a, b)
  {
    BranchPage([Child([], 2, Sum(LeafWith(a))), Child(b.key, 3, Sum(LeafWith(b)))])
  }

  // ----- What the insertions do -----

  lemma {:induction false} LeafSplits(a: Pair, b: Pair)
    requires TwoPages(a, b)
    ensures !LeafFits(Erase(LeafWith(a)), b.key, b.value)
    ensures SplitLeaf(EXAMPLE_PAGE_SIZE, Upsert([a], b.key, b.value))
            == Split(Erase(LeafWith(a)), b.key, Erase(LeafWith(b)))
  {
    LowerBoundIs([a], b.key, 1);
    var us := Upsert([a], b.key, b.value);
    assert us == [a, b];
    assert us[..1] == [a] && us[1..] == [b];
    TotalSizeOne(a);
    TotalSizeOne(b);
  }

  lemma {:induction false} RootBuilds(a: Pair, b: Pair)
    requires TwoPages(a, b)
    ensures BranchBuilds(EXAMPLE_PAGE_SIZE, Erase(RootOf(a, b)).kids)
  {
    var kids := Erase(RootOf(a, b)).kids;
    assert kids[..1] == [kids[0]] && kids[..1][..0] == [];
    assert KeyBytes(kids[..1]) == 0;
  }

  ghost function DirtyOfBoth(a: Pair, b: Pair): Store
    requires TwoPages(a, b)
  {
    map[2 := LeafWith(a), 3 := LeafWith(b), 4 := RootOf(a, b)]
  }

  lemma {:induction false} InsertB(a: Pair, b: Pair)
    requires TwoPages(a, b)
    ensures PutRoot(EXAMPLE_PAGE_SIZE, Work(map[2 := LeafWith(a)], [INITIAL_ROOT], [3, 4]), 2, Sum(LeafWith(a)), b.key,
                    b.value)
         == Done(Work(DirtyOfBoth(a, b), [INITIAL_ROOT], []), 4, Sum(RootOf(a, b)), None)
  {
    var w := Work(map[2 := LeafWith(a)], [INITIAL_ROOT], [3, 4]);
    LeafSplits(a, b);
    RootBuilds(a, b);
    assert w.spare[1..] == [4] && [4][1..] == [];
    var split := Work(map[2 := LeafWith(a)][2 := LeafWith(a)][3 := LeafWith(b)], [INITIAL_ROOT], [4]);
    assert Put(EXAMPLE_PAGE_SIZE, w, 2, Sum(LeafWith(a)), b.key, b.value)
        == Done(split, 2, Sum(LeafWith(a)), Some(Sibling(b.key, 3, Sum(LeafWith(b)))));
    assert split.dirty[4 := RootOf(a, b)] == DirtyOfBoth(a, b);
  }

  // ----- The first transaction -----

  /** Every crash leaves in each page one of the contents that were written to it. */
  ghost predicate WholeCrashes(states: seq<Db>, events: seq<Event>)
    requires |states| == |events| + 1
  {
    forall i :: 0 <= i < |events| && events[i].CrashEvent? ==>
      Survives(states[i], Whole, events[i].disk, events[i].survivor)
  }

  /** A stretch of a run from `s` to `t`. */
  ghost predicate Stretch(states: seq<Db>, events: seq<Event>, s: Db, t: Db) {
    && |states| == |events| + 1 && states[0] == s && states[|events|] == t && WholeCrashes(states, events)
    && forall i {:trigger StepAt(EXAMPLE_PAGE_SIZE, states, events, i)} :: 0 <= i < |events| ==>
         StepAt(EXAMPLE_PAGE_SIZE, states, events, i)
  }

  ghost predicate Leads(s: Db, t: Db) {
    exists states, events :: Stretch(states, events, s, t)
  }

  lemma {:induction false} LeadsNowhere(s: Db)
    ensures Leads(s, s)
  {
    assert Stretch([s], [], s, s);
  }

  lemma {:induction false} LeadsOn(s: Db, t: Db, e: Event, u: Db)
    requires Leads(s, t) && Next(EXAMPLE_PAGE_SIZE, t, u, e)
    requires e.CrashEvent? ==> Survives(t, Whole, e.disk, e.survivor)
    ensures Leads(s, u)
  {
    var states, events :| Stretch(states, events, s, t);
    var more, es := states + [u], events + [e];
    forall i | 0 <= i < |es|
      ensures StepAt(EXAMPLE_PAGE_SIZE, more, es, i)
    {
      if i < |events| {
        assert StepAt(EXAMPLE_PAGE_SIZE, states, events, i);
      }
    }
    assert Stretch(more, es, s, u);
  }

  function FirstHalfDone(s: Db, a: Pair): Db
    requires PairSize(a) <= EXAMPLE_PAGE_SIZE
  {
    Working(s, Allocator([], 5, 1026), 2, Sum(LeafWith(a)), Work(map[2 := LeafWith(a)], [INITIAL_ROOT], [3, 4]), [a])
  }

  ghost function FirstDone(s: Db, a: Pair, b: Pair): Db
    requires TwoPages(a, b)
  {
    Working(s, Allocator([], 5, 1026), 4, Sum(RootOf(a, b)),
            Work(DirtyOfBoth(a, b), [INITIAL_ROOT], []), [a, b])
  }

  ghost function FirstWritten(s: Db, a: Pair, b: Pair): Db
    requires TwoPages(a, b)
  {
    Written(Flushed(FirstDone(s, a, b), {2, 3, 4}))
  }

  lemma {:induction false} FirstInserts(s: Db, a: Pair)
    requires s == ExampleStart() && 56 + PairSize(a) <= EXAMPLE_PAGE_SIZE
    ensures Leads(s, FirstHalfDone(s, a))
  {
    var none, two, three, four := Begun(s, s.alloc, []), Begun(s, Allocator([], 3, 1026), [2]),
                                  Begun(s, Allocator([], 4, 1026), [2, 3]), Begun(s, Allocator([], 5, 1026), [2, 3, 4]);
    assert [] + [2] == [2] && [2] + [3] == [2, 3] && [2, 3] + [4] == [2, 3, 4] && [] + [a] == [a];
    LeadsNowhere(s);
    LeadsOn(s, s, BeginWriteEvent, none);
    assert TakeId(none, two, None);
    LeadsOn(s, none, TakeIdEvent(None), two);
    TakeStep(s, 3, [2]);
    LeadsOn(s, two, TakeIdEvent(None), three);
    TakeStep(s, 4, [2, 3]);
    LeadsOn(s, three, TakeIdEvent(None), four);
    assert [2] + [3, 4] == [2, 3, 4];
    InsertA(a, [3, 4]);
    InsertStep(s, Allocator([], 5, 1026), INITIAL_ROOT, Sum(EmptyLeaf(EXAMPLE_PAGE_SIZE)), Work(map[], [], [2, 3, 4]),
               [], a, 2, Sum(LeafWith(a)), Work(map[2 := LeafWith(a)], [INITIAL_ROOT], [3, 4]));
    LeadsOn(s, four, InsertEvent(a.key, a.value), FirstHalfDone(s, a));
  }

  lemma {:induction false} FirstInsertsMore(s: Db, a: Pair, b: Pair)
    requires TwoPages(a, b) && Leads(s, FirstHalfDone(s, a))
    ensures Leads(s, FirstDone(s, a, b))
  {
    InsertB(a, b);
    assert [a] + [b] == [a, b];
    InsertStep(s, Allocator([], 5, 1026), 2, Sum(LeafWith(a)), Work(map[2 := LeafWith(a)], [INITIAL_ROOT], [3, 4]),
               [a], b, 4, Sum(RootOf(a, b)), FirstDone(s, a, b).writer.work);
    LeadsOn(s, FirstHalfDone(s, a), InsertEvent(b.key, b.value), FirstDone(s, a, b));
  }

  lemma {:induction false} FirstFlushes(s: Db, t: Db)
    requires Leads(s, t) && InPhase(t, Inserting) && t.unsynced == {} && t.writer.work.dirty.Keys == {2, 3, 4}
    ensures Leads(s, Written(Flushed(t, {2, 3, 4})))
  {
    StartFlushStep(t);
    LeadsOn(s, t, StartFlushEvent, Flushed(t, {}));
    FlushStep(t, {}, 2, {2});
    LeadsOn(s, Flushed(t, {}), FlushPageEvent(2), Flushed(t, {2}));
    FlushStep(t, {2}, 3, {2, 3});
    LeadsOn(s, Flushed(t, {2}), FlushPageEvent(3), Flushed(t, {2, 3}));
    FlushStep(t, {2, 3}, 4, {2, 3, 4});
    LeadsOn(s, Flushed(t, {2, 3}), FlushPageEvent(4), Flushed(t, {2, 3, 4}));
    WriteHeaderStep(t, {2, 3, 4});
    LeadsOn(s, Flushed(t, {2, 3, 4}), WriteHeaderEvent, Written(Flushed(t, {2, 3, 4})));
  }

  // ----- The second transaction -----

  function SecondDone(s: Db, a: Pair): Db
    requires PairSize(a) <= EXAMPLE_PAGE_SIZE
  {
    Working(s, Allocator([], 3, 1026), 2, Sum(LeafWith(a)), Work(map[2 := LeafWith(a)], [INITIAL_ROOT], []), [a])
  }

  lemma {:induction false} SecondInserts(first: Db, s: Db, a: Pair)
    requires Leads(first, s) && 56 + PairSize(a) <= EXAMPLE_PAGE_SIZE
    requires s.writer.Idle? && s.tracker == map[] && s.alloc == Allocator([], 2, 1026)
    requires Active(s.header).root == INITIAL_ROOT && Active(s.header).sum == Sum(EmptyLeaf(EXAMPLE_PAGE_SIZE))
    ensures Leads(first, SecondDone(s, a))
  {
    var none, two := Begun(s, s.alloc, []), Begun(s, Allocator([], 3, 1026), [2]);
    assert [] + [2] == [2] && [2] + [] == [2] && [] + [a] == [a];
    LeadsOn(first, s, BeginWriteEvent, none);
    TakeStep(s, 2, []);
    LeadsOn(first, none, TakeIdEvent(None), two);
    InsertA(a, []);
    InsertStep(s, Allocator([], 3, 1026), INITIAL_ROOT, Sum(EmptyLeaf(EXAMPLE_PAGE_SIZE)), Work(map[], [], [2]), [], a,
               2, Sum(LeafWith(a)), Work(map[2 := LeafWith(a)], [INITIAL_ROOT], []));
    LeadsOn(first, two, InsertEvent(a.key, a.value), SecondDone(s, a));
  }

  lemma {:induction false} SecondFlushes(first: Db, t: Db)
    requires Leads(first, t) && InPhase(t, Inserting) && t.unsynced == {} && 2 in t.writer.work.dirty
    ensures Leads(first, Flushed(t, {2}))
  {
    StartFlushStep(t);
    LeadsOn(first, t, StartFlushEvent, Flushed(t, {}));
    FlushStep(t, {}, 2, {2});
    LeadsOn(first, Flushed(t, {}), FlushPageEvent(2), Flushed(t, {2}));
  }

  // ----- The run -----

  /** The first crash loses one page write: page 2 is what it was at the last sync, which is nothing. */
  ghost function LostDisk(a: Pair, b: Pair): Store
    requires TwoPages(a, b)
  {
    ExampleStart().disk[3 := LeafWith(b)][4 := RootOf(a, b)]
  }

  ghost function AfterFallback(a: Pair, b: Pair): Db
    requires TwoPages(a, b)
  {
    var h := FirstWritten(ExampleStart(), a, b).onDisk;
    Db(LostDisk(a, b), LostDisk(a, b), {}, h, h, Switch(h), Allocator([], 2, 1026), map[], map[], Idle)
  }

  lemma {:induction false} FirstCrash(a: Pair, b: Pair)
    requires TwoPages(a, b)
    ensures var s := FirstWritten(ExampleStart(), a, b);
            Survives(s, Whole, LostDisk(a, b), s.onDisk) && Crash(s, AfterFallback(a, b), LostDisk(a, b), s.onDisk)
  {
    var s, disk := FirstWritten(ExampleStart(), a, b), LostDisk(a, b);
    forall x
      ensures SamePage(disk, s.disk, x) || (x in s.unsynced && SamePage(disk, s.synced, x))
    {
    }
    assert Survives(s, Whole, disk, s.onDisk);
    var cs := RootOf(a, b).children;
    assert ChildVerified(disk, cs, 0) <==> Verified(disk, 2, Sum(LeafWith(a)));
    assert !Verified(disk, 4, Sum(RootOf(a, b)));
    assert Verified(disk, INITIAL_ROOT, Sum(EmptyLeaf(EXAMPLE_PAGE_SIZE)));
  }

  /** The last state: the second transaction has written its only page. */
  ghost function SecondFlushed(a: Pair, b: Pair): Db
    requires TwoPages(a, b)
  {
    Flushed(SecondDone(AfterFallback(a, b), a), {2})
  }

  /** A state that can be reached. */
  ghost predicate Reached(t: Db) {
    exists states, events ::
      && Run(EXAMPLE_PAGE_SIZE, states, events) && WholeCrashes(states, events) && states[|events|] == t
  }

  lemma {:induction false} LeadsIsRun(t: Db)
    requires Leads(ExampleStart(), t)
    ensures Reached(t)
  {
    var states, events :| Stretch(states, events, ExampleStart(), t);
    assert Initial(EXAMPLE_PAGE_SIZE, ExampleStart());
    assert Run(EXAMPLE_PAGE_SIZE, states, events);
  }

  /** Two transactions, the first of them interrupted by a crash that undoes one page write. */
  lemma {:induction false} LostCommitRun(a: Pair, b: Pair)
    requires TwoPages(a, b)
    ensures Reached(SecondFlushed(a, b))
  {
    var s := ExampleStart();
    FirstInserts(s, a);
    FirstInsertsMore(s, a, b);
    assert FirstDone(s, a, b).writer.work.dirty.Keys == {2, 3, 4};
    FirstFlushes(s, FirstDone(s, a, b));
    FirstCrash(a, b);
    LeadsOn(s, FirstWritten(s, a, b), CrashEvent(LostDisk(a, b), FirstWritten(s, a, b).onDisk), AfterFallback(a, b));
    SecondInserts(s, AfterFallback(a, b), a);
    SecondFlushes(s, SecondDone(AfterFallback(a, b), a));
    LeadsIsRun(SecondFlushed(a, b));
  }

  lemma {:induction false} StaleTreeVerifies(disk: Store, a: Pair, b: Pair)
    requires TwoPages(a, b)
    requires 2 in disk && 3 in disk && 4 in disk && disk[2] == LeafWith(a) && disk[3] == LeafWith(b)
             && disk[4] == RootOf(a, b)
    ensures Verified(disk, 4, Sum(RootOf(a, b)))
  {
    var cs := RootOf(a, b).children;
    assert ChildVerified(disk, cs, 0) && ChildVerified(disk, cs, 1);
  }

  /** A commit that the first crash destroyed comes back after the second one, although then every page on the
      disk holds what was last written to it: the database opens with neither the published map nor that of
      the transaction in progress. */
  lemma {:induction false} LostCommitReturns(a: Pair, b: Pair)
    requires TwoPages(a, b)
    ensures Reached(SecondFlushed(a, b))
    ensures var s := SecondFlushed(a, b);
            && Survives(s, Whole, s.disk, s.durable) && Recover(s.disk, s.durable).Some?
            && PairsAt(Active(s.header).sum) == []
            && UpsertAll(PairsAt(Active(s.header).sum), s.writer.ops) == [a]
            && PairsAt(Opened(s.disk, s.durable).sum) == [a, b]
  {
    LostCommitRun(a, b);
    var s := SecondFlushed(a, b);
    StaleTreeVerifies(s.disk, a, b);
    assert forall x :: SamePage(s.disk, s.disk, x);
    OpsOfSecond(a);
    PairsOfRoot(a, b);
  }

  lemma {:induction false} OpsOfSecond(a: Pair)
    ensures UpsertAll([], [a]) == [a]
  {
    assert [a][..0] == [];
    assert UpsertAll([], [a][..0]) == [];
    assert Upsert([], a.key, a.value) == [a];
  }

  lemma {:induction false} PairsOfRoot(a: Pair, b: Pair)
    requires TwoPages(a, b)
    ensures Pairs(Erase(RootOf(a, b))) == [a, b]
  {
    var kids := Erase(RootOf(a, b)).kids;
    assert kids[..1] == [kids[0]] && kids[..1][..0] == [];
    assert PairsOf(kids[..1]) == [] + [a];
    assert PairsOf(kids) == PairsOf(kids[..1]) + [b];
  }
}
