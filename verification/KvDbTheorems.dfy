/** What the database promises, over every run: snapshot isolation, conservation of pages, verified
    committed trees, and atomic commits across crashes. */
module KvDbTheorems {
  import opened Collections
  import opened KvKeys
  import opened KvTree
  import opened KvTreeProofs
  import opened KvPages
  import opened KvLedger
  import opened KvTransaction
  import opened KvAllocator
  import opened KvDb
  import opened KvDbInvariant

  // ----- Every run -----

  ghost predicate CommitStep(e: Event) {
    e.StartFlushEvent? || e.FlushPageEvent? || e.WriteHeaderEvent? || e.SyncEvent? || e.PublishEvent?
    || e.FreePageEvent?
  }

  lemma {:induction false} CommitStepInv(pageSize: nat, s: Db, t: Db, e: Event)
    requires Inv(s) && Next(pageSize, s, t, e) && CommitStep(e)
    ensures Inv(t)
  {
    match e
    case StartFlushEvent => StartFlushInv(s, t);
    case FlushPageEvent(x) => FlushPageInv(s, t, x);
    case WriteHeaderEvent => WriteHeaderInv(s, t);
    case SyncEvent => SyncInv(s, t);
    case PublishEvent => PublishInv(s, t);
    case FreePageEvent => FreePageInv(s, t);
  }

  lemma {:induction false} StepInv(pageSize: nat, s: Db, t: Db, e: Event)
    requires Inv(s) && Next(pageSize, s, t, e)
    ensures Inv(t)
  {
    if CommitStep(e) {
      CommitStepInv(pageSize, s, t, e);
    } else {
      OtherStepInv(pageSize, s, t, e);
    }
  }

  lemma {:induction false} OtherStepInv(pageSize: nat, s: Db, t: Db, e: Event)
    requires Inv(s) && Next(pageSize, s, t, e) && !CommitStep(e)
    ensures Inv(t)
  {
    match e
    case BeginReadEvent(rid) => BeginReadInv(s, t, rid);
    case EndReadEvent(rid) => EndReadInv(s, t, rid);
    case BeginWriteEvent => BeginWriteInv(s, t);
    case TakeIdEvent(oldest) => TakeIdInv(s, t, oldest);
    case InsertEvent(k, v) => InsertPairInv(pageSize, s, t, k, v);
    case AbortEvent => AbortInv(s, t);
    case EndWriteEvent => EndWriteInv(s, t);
    case CrashEvent(disk, h) => CrashInv(s, t, disk, h);
  }

  lemma {:induction false} StepAtInv(pageSize: nat, states: seq<Db>, events: seq<Event>, i: nat)
    requires Run(pageSize, states, events) && i < |events| && Inv(states[i])
    ensures Inv(states[i + 1])
  {
    assert StepAt(pageSize, states, events, i);
    StepInv(pageSize, states[i], states[i + 1], events[i]);
  }

  lemma {:induction false} StartInv(pageSize: nat, states: seq<Db>, events: seq<Event>)
    requires Run(pageSize, states, events)
    ensures Inv(states[0])
  {
    InitialInv(pageSize, states[0]);
  }

  lemma {:induction false} RunInv(pageSize: nat, states: seq<Db>, events: seq<Event>, i: nat)
    requires Run(pageSize, states, events) && i < |states|
    ensures Inv(states[i])
  {
    if i == 0 {
      StartInv(pageSize, states, events);
    } else {
      RunInv(pageSize, states, events, i - 1);
      StepAtInv(pageSize, states, events, i - 1);
    }
  }

  // ----- Snapshot isolation -----

  /** The reader is open in all states from `i` to `j`. */
  ghost predicate OpenThroughout(states: seq<Db>, i: nat, j: nat, rid: nat)
    requires i <= j < |states|
  {
    forall m {:trigger states[m]} :: i <= m <= j ==> rid in states[m].readers
  }

  lemma {:induction false} StepKeepsReader(pageSize: nat, s: Db, t: Db, e: Event, rid: nat)
    requires Next(pageSize, s, t, e) && rid in s.readers && rid in t.readers
    ensures t.readers[rid] == s.readers[rid]
  {
  }

  lemma {:induction false} ReaderIsFixed(pageSize: nat, states: seq<Db>, events: seq<Event>, i: nat, j: nat, rid: nat)
    requires Run(pageSize, states, events) && i <= j < |states| && OpenThroughout(states, i, j, rid)
    ensures states[j].readers[rid] == states[i].readers[rid]
    decreases j
  {
    if i < j {
      ReaderIsFixed(pageSize, states, events, i, j - 1, rid);
      assert StepAt(pageSize, states, events, j - 1);
      assert rid in states[j - 1].readers && rid in states[j].readers;
      StepKeepsReader(pageSize, states[j - 1], states[j], events[j - 1], rid);
    }
  }

  /** No page of an open reader's tree is ever overwritten: in every state in which the reader is open, the
      tree that was committed when it started is on the disk, page for page. */
  lemma {:induction false} SnapshotPages(pageSize: nat, states: seq<Db>, events: seq<Event>, i: nat, j: nat, rid: nat)
    requires Run(pageSize, states, events) && i <= j < |states| && OpenThroughout(states, i, j, rid)
    ensures var r := states[i].readers[rid];
            && Verified(states[j].disk, r.root, r.sum)
            && forall x :: x in ReaderIds(r) ==>
                 x in states[i].disk && x in states[j].disk && states[j].disk[x] == states[i].disk[x]
  {
    assert rid in states[i].readers && rid in states[j].readers;
    ReaderIsFixed(pageSize, states, events, i, j, rid);
    RunInv(pageSize, states, events, i);
    RunInv(pageSize, states, events, j);
    var r := states[i].readers[rid];
    VerifiedAgree(states[i].disk, states[j].disk, r.root, r.sum);
  }

  /** Two stores that both hold a tree hold the same pages of it. */
  lemma {:induction false} VerifiedAgree(s: Store, t: Store, id: PageId, sum: Checksum)
    requires Verified(s, id, sum) && Verified(t, id, sum)
    ensures forall x :: x in Ids(id, sum.page) ==> x in s && x in t && s[x] == t[x]
    decreases sum, 1
  {
    if sum.page.BranchPage? {
      AllVerifiedAgree(s, t, sum.page.children);
    }
  }

  lemma {:induction false} AllVerifiedAgree(s: Store, t: Store, cs: seq<Child>)
    requires AllVerified(s, cs) && AllVerified(t, cs)
    ensures forall x :: x in IdsOf(cs) ==> x in s && x in t && s[x] == t[x]
    decreases cs, 0
  {
    if cs != [] {
      var n := |cs| - 1;
      assert cs == cs[..n] + [cs[n]];
      AllVerifiedParts(s, cs[..n], [cs[n]]);
      AllVerifiedParts(t, cs[..n], [cs[n]]);
      AllVerifiedOne(s, cs[n]);
      AllVerifiedOne(t, cs[n]);
      AllVerifiedAgree(s, t, cs[..n]);
      VerifiedAgree(s, t, cs[n].page, cs[n].sum);
    }
  }

  /** `Tree::get` by a reader whose page loads happen at the moments `at`, one after the other, while other
      readers and the writer go on: loading `id` and what lies below it answers `r`. */
  ghost predicate Answers(states: seq<Db>, at: seq<nat>, id: PageId, k: Key, r: Option<Value>)
    decreases |at|
  {
    && |at| > 0 && at[0] < |states| && id in states[at[0]].disk
    && match states[at[0]].disk[id]
       case LeafPage(es, _) => r == Lookup(es, k)
       case BranchPage(cs) => cs != [] && Answers(states, at[1..], cs[ChildIndex(EraseAll(cs), k)].page, k, r)
       case JunkPage(_) => false
  }

  ghost predicate Within(at: seq<nat>, i: nat, j: nat) {
    forall n :: 0 <= n < |at| ==> i <= at[n] <= j
  }

  lemma {:induction false} AnswersAreGets(states: seq<Db>, at: seq<nat>, i: nat, j: nat, id: PageId, sum: Checksum,
                                          k: Key, r: Option<Value>)
    requires i <= j < |states| && Within(at, i, j) && Answers(states, at, id, k, r)
    requires forall m {:trigger states[m]} :: i <= m <= j ==> Verified(states[m].disk, id, sum)
    ensures r == Get(Erase(sum.page), k)
    decreases |at|
  {
    assert i <= at[0] <= j;
    assert Verified(states[at[0]].disk, id, sum);
    if sum.page.BranchPage? {
      var cs := sum.page.children;
      var n := ChildIndex(EraseAll(cs), k);
      forall m | i <= m <= j
        ensures Verified(states[m].disk, cs[n].page, cs[n].sum)
      {
        assert Verified(states[m].disk, id, sum);
        assert AllVerified(states[m].disk, cs);
        assert ChildVerified(states[m].disk, cs, n);
      }
      AnswersAreGets(states, at[1..], i, j, cs[n].page, cs[n].sum, k, r);
    }
  }

  /** Snapshot isolation: in every run, every read by a reader that was opened in state `i` is answered as
      the map committed at that moment answers it, whatever happens between its page loads. */
  lemma {:induction false} SnapshotIsolation(pageSize: nat, states: seq<Db>, events: seq<Event>, i: nat, j: nat,
                                             rid: nat, at: seq<nat>, k: Key, r: Option<Value>)
    requires Run(pageSize, states, events) && 0 < i <= j < |states|
    requires events[i - 1] == BeginReadEvent(rid) && OpenThroughout(states, i, j, rid)
    requires Within(at, i, j) && Answers(states, at, states[i].readers[rid].root, k, r)
    ensures r == Lookup(PairsAt(Active(states[i - 1].header).sum), k)
  {
    assert StepAt(pageSize, states, events, i - 1);
    var reader := states[i].readers[rid];
    forall m | i <= m <= j
      ensures Verified(states[m].disk, reader.root, reader.sum)
    {
      assert OpenThroughout(states, i, m, rid);
      SnapshotPages(pageSize, states, events, i, m, rid);
    }
    AnswersAreGets(states, at, i, j, reader.root, reader.sum, k, r);
    RunInv(pageSize, states, events, i - 1);
    var depth: nat :| Ordered(Erase(reader.sum.page), depth, [], None);
    GetIsLookup(Erase(reader.sum.page), depth, [], None, k);
  }

  // ----- Conservation -----

  /** The tree of a running transaction consists of the committed pages it has not freed and of its own
      pages; committed pages, its own pages, its spare ids, the queue and the ids never used do not
      overlap; nothing is freed twice; and all ids lie inside the file. */
  lemma {:induction false} PagesConserved(pageSize: nat, states: seq<Db>, events: seq<Event>, i: nat)
    requires Run(pageSize, states, events) && i < |states|
    ensures var s := states[i];
            && Apart(Committed(s.header), Queued(s.alloc), Held(s.writer), Pending(s.writer))
            && Below(Committed(s.header) + Queued(s.alloc) + Held(s.writer) + Pending(s.writer), s.alloc.next)
            && s.alloc.next <= s.alloc.reserved
            && (forall a, b :: 0 <= a < b < |s.alloc.queue| ==>
                  s.alloc.queue[a].page != s.alloc.queue[b].page && s.alloc.queue[a].tx <= s.alloc.queue[b].tx)
    ensures var s := states[i];
            s.writer.Busy? && !s.writer.phase.Freeing? ==>
              var w := s.writer.work;
              && Ids(s.writer.root, s.writer.sum.page) == Committed(s.header) - Elems(w.freed) + w.dirty.Keys
              && Elems(w.freed) <= Committed(s.header) && NoRepeats(w.freed)
              && NoRepeats(w.spare) && Elems(w.spare) !! w.dirty.Keys
  {
    RunInv(pageSize, states, events, i);
  }

  // ----- Verified trees -----

  /** In every reachable state the committed tree verifies, and so does the tree of the running
      transaction, as the transaction sees the pages, after any number of insertions. */
  lemma {:induction false} TreesVerify(pageSize: nat, states: seq<Db>, events: seq<Event>, i: nat)
    requires Run(pageSize, states, events) && i < |states|
    ensures var s := states[i];
            && Sound(s.disk, Active(s.header).root, Active(s.header).sum)
            && (s.writer.Busy? && !s.writer.phase.Freeing? ==>
                  && Sound(View(s.disk, s.writer.work), s.writer.root, s.writer.sum)
                  && PairsAt(s.writer.sum) == UpsertAll(PairsAt(Active(s.header).sum), s.writer.ops))
  {
    RunInv(pageSize, states, events, i);
  }

  /** What a publication changes: the committed map becomes the old one with the transaction's insertions
      applied in order; no other step except a crash changes it. */
  lemma {:induction false} PublishedMap(pageSize: nat, states: seq<Db>, events: seq<Event>, i: nat)
    requires Run(pageSize, states, events) && i < |events| && !events[i].CrashEvent?
    ensures var before, after := PairsAt(Active(states[i].header).sum), PairsAt(Active(states[i + 1].header).sum);
            if events[i].PublishEvent? then states[i].writer.Busy? && after == UpsertAll(before, states[i].writer.ops)
            else after == before
  {
    RunInv(pageSize, states, events, i);
    assert StepAt(pageSize, states, events, i);
  }
}
