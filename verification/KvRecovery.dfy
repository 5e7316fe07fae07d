/** Crashes: what a database can open afterwards, whatever became of the writes that were not synced. */
module KvRecovery {
  import opened Collections
  import opened KvKeys
  import opened KvPages
  import opened KvLedger
  import opened KvTransaction
  import opened KvDb
  import opened KvDbInvariant
  import opened KvDbTheorems

  /** The slot that recovery opens. */
  ghost function Opened(disk: Store, h: Header): Slot
    requires Recover(disk, h).Some?
  {
    Active(Recover(disk, h).value)
  }

  /** The header of the running transaction is on its way to the disk. */
  ghost predicate InFlight(s: Db) {
    s.writer.Busy? && (s.writer.phase.HeaderWritten? || s.writer.phase.Synced?)
  }

  /** Recovery opens what was published last, or the commit in flight. */
  ghost predicate AtomicOutcome(s: Db, slot: Slot) {
    slot == Active(s.header) || (InFlight(s) && slot == SlotOf(s))
  }

  /** Recovery never fails, and the tree it opens is a sound one, in every run and for every way in which the
      unsynced writes may have been lost. */
  lemma {:induction false} RecoveryOpensSoundTree(pageSize: nat, states: seq<Db>, events: seq<Event>, i: nat,
                                                  disk: Store, h: Header)
    requires Run(pageSize, states, events) && i < |states| && Survives(states[i], Torn, disk, h)
    ensures Recover(disk, h).Some? && Sound(disk, Opened(disk, h).root, Opened(disk, h).sum)
    ensures AtomicOutcome(states[i], Opened(disk, h)) || Opened(disk, h) == Inactive(states[i].header)
  {
    var s := states[i];
    RunInv(pageSize, states, events, i);
    RecoverySucceeds(s, disk, h);
    SurvivingHeader(s, disk, h);
    CrashInv(s, Reopened(s, disk, h, Recover(disk, h).value), disk, h);
  }

  /** Crash atomicity: unless a slot that an earlier recovery gave up could come back, the database opens with
      the published map or with all insertions of the commit in flight, even if unsynced pages hold garbage. */
  lemma {:induction false} CrashAtomicity(pageSize: nat, states: seq<Db>, events: seq<Event>, i: nat, disk: Store,
                                          h: Header)
    requires Run(pageSize, states, events) && i < |states| && Survives(states[i], Torn, disk, h)
    requires !StaleSlotCouldReturn(states[i], Torn)
    ensures Recover(disk, h).Some? && Sound(disk, Opened(disk, h).root, Opened(disk, h).sum)
    ensures var pairs, published := PairsAt(Opened(disk, h).sum), PairsAt(Active(states[i].header).sum);
            pairs == published || (InFlight(states[i]) && pairs == UpsertAll(published, states[i].writer.ops))
  {
    RecoveryOpensSoundTree(pageSize, states, events, i, disk, h);
    RunInv(pageSize, states, events, i);
    NothingStaleReturns(states[i], Torn, disk, h);
  }

  /** Durability: once the sync is done, every crash opens the new commit, and nothing else. */
  lemma {:induction false} SyncedCommitSurvives(pageSize: nat, states: seq<Db>, events: seq<Event>, i: nat,
                                                disk: Store, h: Header)
    requires Run(pageSize, states, events) && i < |states| && Survives(states[i], Torn, disk, h)
    ensures InPhase(states[i], Synced) ==> Recover(disk, h) == Some(h) && Opened(disk, h) == SlotOf(states[i])
    ensures states[i].durable == states[i].header && !InFlight(states[i]) ==>
            Recover(disk, h) == Some(h) && Opened(disk, h) == Active(states[i].header)
  {
    var s := states[i];
    RunInv(pageSize, states, events, i);
    SurvivingHeader(s, disk, h);
    CommittedSurvives(s, disk, h);
    if InPhase(s, Synced) {
      assert View(s.disk, s.writer.work) == s.disk;
      VerifiedFrame(s.disk, disk, s.writer.root, s.writer.sum);
    }
  }

  /** A publication makes the header page name the published slot, until the next crash. */
  lemma {:induction false} CleanUntilCrash(pageSize: nat, states: seq<Db>, events: seq<Event>, i: nat)
    requires Run(pageSize, states, events) && i < |events|
    ensures events[i].PublishEvent? ==> states[i + 1].durable == states[i + 1].header
    ensures states[i].durable == states[i].header && !events[i].CrashEvent? && !events[i].SyncEvent? ==>
            states[i + 1].durable == states[i + 1].header
    ensures states[i].durable == states[i].header ==> forall damage :: !StaleSlotCouldReturn(states[i], damage)
  {
    RunInv(pageSize, states, events, i);
    assert StepAt(pageSize, states, events, i);
  }

  // ----- After a recovery that fell back -----

  /** A crash may leave `p` in page `x`. */
  ghost predicate MayHold(s: Db, damage: Damage, x: PageId, p: Page) {
    || (x in s.disk && s.disk[x] == p)
    || (x in s.unsynced && (damage.Torn? || (x in s.synced && s.synced[x] == p)))
  }

  /** A tree that could verify after a crash: each of its pages is in the file, or was there at the last sync
      and has been overwritten since. If writes can be torn, a page written since can hold anything. */
  ghost predicate Revivable(s: Db, damage: Damage, id: PageId, sum: Checksum)
    decreases sum, 1
  {
    && MayHold(s, damage, id, sum.page)
    && match sum.page
       case LeafPage(_, _) => true
       case BranchPage(cs) => AllRevivable(s, damage, cs)
       case JunkPage(_) => false
  }

  ghost predicate AllRevivable(s: Db, damage: Damage, cs: seq<Child>)
    decreases cs, 0
  {
    cs != [] ==>
    && AllRevivable(s, damage, cs[..|cs| - 1])
    && Revivable(s, damage, cs[|cs| - 1].page, cs[|cs| - 1].sum)
  }

  /** The pages of a tree. */
  ghost function Contents(id: PageId, sum: Checksum): Store
    decreases sum, 1
  {
    (if sum.page.BranchPage? then ContentsOf(sum.page.children) else map[])[id := sum.page]
  }

  ghost function ContentsOf(cs: seq<Child>): Store
    decreases cs, 0
  {
    if cs == [] then map[] else ContentsOf(cs[..|cs| - 1]) + Contents(cs[|cs| - 1].page, cs[|cs| - 1].sum)
  }

  lemma {:induction false} ContentsKeys(id: PageId, sum: Checksum)
    ensures Contents(id, sum).Keys == Ids(id, sum.page)
    decreases sum, 1
  {
    if sum.page.BranchPage? {
      ContentsOfKeys(sum.page.children);
    }
  }

  lemma {:induction false} ContentsOfKeys(cs: seq<Child>)
    ensures ContentsOf(cs).Keys == IdsOf(cs)
    decreases cs, 0
  {
    if cs != [] {
      ContentsOfKeys(cs[..|cs| - 1]);
      ContentsKeys(cs[|cs| - 1].page, cs[|cs| - 1].sum);
    }
  }

  ghost predicate Within(part: Store, store: Store) {
    forall x :: x in part ==> x in store && store[x] == part[x]
  }

  /** A crash may leave every page of a revivable tree. */
  lemma {:induction false} ContentsMayHold(s: Db, damage: Damage, id: PageId, sum: Checksum)
    requires Revivable(s, damage, id, sum)
    ensures forall x :: x in Contents(id, sum) ==> MayHold(s, damage, x, Contents(id, sum)[x])
    decreases sum, 1
  {
    if sum.page.BranchPage? {
      ContentsOfMayHold(s, damage, sum.page.children);
    }
  }

  lemma {:induction false} ContentsOfMayHold(s: Db, damage: Damage, cs: seq<Child>)
    requires AllRevivable(s, damage, cs)
    ensures forall x :: x in ContentsOf(cs) ==> MayHold(s, damage, x, ContentsOf(cs)[x])
    decreases cs, 0
  {
    if cs != [] {
      ContentsOfMayHold(s, damage, cs[..|cs| - 1]);
      ContentsMayHold(s, damage, cs[|cs| - 1].page, cs[|cs| - 1].sum);
    }
  }

  /** Any store that holds the pages of a revivable tree verifies. */
  lemma {:induction false} HeldVerifies(s: Db, damage: Damage, id: PageId, sum: Checksum, store: Store)
    requires Revivable(s, damage, id, sum) && Distinct(id, sum.page) && Within(Contents(id, sum), store)
    ensures Verified(store, id, sum)
    decreases sum, 1
  {
    assert id in Contents(id, sum);
    if sum.page.BranchPage? {
      var cs := sum.page.children;
      ContentsOfKeys(cs);
      assert forall x :: x in ContentsOf(cs) ==> x in Contents(id, sum) && Contents(id, sum)[x] == ContentsOf(cs)[x];
      AllHeldVerify(s, damage, cs, store);
    }
  }

  lemma {:induction false} AllHeldVerify(s: Db, damage: Damage, cs: seq<Child>, store: Store)
    requires AllRevivable(s, damage, cs) && DistinctAll(cs) && Within(ContentsOf(cs), store)
    ensures AllVerified(store, cs)
    decreases cs, 0
  {
    if cs != [] {
      var front, last := cs[..|cs| - 1], cs[|cs| - 1];
      ContentsOfKeys(front);
      ContentsKeys(last.page, last.sum);
      assert forall x :: x in ContentsOf(front) ==> x in ContentsOf(cs) && ContentsOf(cs)[x] == ContentsOf(front)[x];
      assert forall x :: x in Contents(last.page, last.sum) ==> x in ContentsOf(cs);
      AllHeldVerify(s, damage, front, store);
      HeldVerifies(s, damage, last.page, last.sum, store);
      assert cs == front + [last];
      AllVerifiedParts(store, front, [last]);
      AllVerifiedOne(store, last);
    }
  }

  /** Every page of the store is one that a crash may leave. */
  ghost predicate Possible(s: Db, damage: Damage, store: Store) {
    forall x :: x in store ==> MayHold(s, damage, x, store[x])
  }

  /** Nothing but revivable trees can verify after a crash. */
  lemma {:induction false} VerifiedWasRevivable(s: Db, damage: Damage, id: PageId, sum: Checksum, store: Store)
    requires Verified(store, id, sum) && Possible(s, damage, store)
    ensures Revivable(s, damage, id, sum)
    decreases sum, 1
  {
    if sum.page.BranchPage? {
      AllVerifiedWereRevivable(s, damage, sum.page.children, store);
    }
  }

  lemma {:induction false} AllVerifiedWereRevivable(s: Db, damage: Damage, cs: seq<Child>, store: Store)
    requires AllVerified(store, cs) && Possible(s, damage, store)
    ensures AllRevivable(s, damage, cs)
    decreases cs, 0
  {
    if cs != [] {
      var front, last := cs[..|cs| - 1], cs[|cs| - 1];
      assert cs == front + [last];
      AllVerifiedParts(store, front, [last]);
      AllVerifiedOne(store, last);
      AllVerifiedWereRevivable(s, damage, front, store);
      VerifiedWasRevivable(s, damage, last.page, last.sum, store);
    }
  }

  /** Every crash in this state is atomic. */
  ghost predicate CrashesAreAtomic(s: Db, damage: Damage) {
    forall disk, h :: Survives(s, damage, disk, h) ==> Recover(disk, h).Some? && AtomicOutcome(s, Opened(disk, h))
  }

  /** The header page still names a slot that recovery gave up, and the tree of that slot could come back. */
  ghost predicate StaleSlotCouldReturn(s: Db, damage: Damage) {
    && s.durable != s.header && !InPhase(s, Synced)
    && Revivable(s, damage, Inactive(s.header).root, Inactive(s.header).sum)
    && !AtomicOutcome(s, Inactive(s.header))
  }

  /** Exactly when commits are atomic across a crash. Recovery does not rewrite the header page when it falls
      back to the older slot, so until the next commit a second crash can open the commit that the first one
      destroyed, but only if each of its pages is in the file or was there at the last sync. */
  lemma {:induction false} CrashesAreAtomicIff(pageSize: nat, states: seq<Db>, events: seq<Event>, i: nat,
                                               damage: Damage)
    requires Run(pageSize, states, events) && i < |states|
    ensures CrashesAreAtomic(states[i], damage) <==> !StaleSlotCouldReturn(states[i], damage)
  {
    var s := states[i];
    RunInv(pageSize, states, events, i);
    if StaleSlotCouldReturn(s, damage) {
      StaleSlotReturns(s, damage);
    } else {
      forall disk, h | Survives(s, damage, disk, h)
        ensures Recover(disk, h).Some? && AtomicOutcome(s, Opened(disk, h))
      {
        NothingStaleReturns(s, damage, disk, h);
      }
    }
  }

  /** The disk on which every page of the stale tree holds what the tree needs. */
  lemma {:induction false} StaleSlotReturns(s: Db, damage: Damage)
    requires Inv(s) && StaleSlotCouldReturn(s, damage)
    ensures !CrashesAreAtomic(s, damage)
  {
    var b := Inactive(s.header);
    var contents := Contents(b.root, b.sum);
    var disk := s.disk + contents;
    HeldVerifies(s, damage, b.root, b.sum, disk);
    ContentsMayHold(s, damage, b.root, b.sum);
    MendedSurvives(s, damage, contents);
    assert Opened(disk, s.durable) == b;
  }

  lemma {:induction false} MendedSurvives(s: Db, damage: Damage, contents: Store)
    requires forall x :: x in contents ==> MayHold(s, damage, x, contents[x])
    ensures Survives(s, damage, s.disk + contents, s.durable)
  {
    var disk := s.disk + contents;
    forall x
      ensures SamePage(disk, s.disk, x) || (x in s.unsynced && (damage.Torn? || SamePage(disk, s.synced, x)))
    {
      if x in contents {
        assert MayHold(s, damage, x, contents[x]);
      }
    }
  }

  lemma {:induction false} SurvivorsArePossible(s: Db, damage: Damage, disk: Store, h: Header)
    requires Survives(s, damage, disk, h)
    ensures Possible(s, damage, disk) && Survives(s, Torn, disk, h)
  {
    forall x | x in disk
      ensures MayHold(s, damage, x, disk[x])
    {
      assert SamePage(disk, s.disk, x) || (x in s.unsynced && (damage.Torn? || SamePage(disk, s.synced, x)));
    }
  }

  lemma {:induction false} NothingStaleReturns(s: Db, damage: Damage, disk: Store, h: Header)
    requires Inv(s) && Survives(s, damage, disk, h) && !StaleSlotCouldReturn(s, damage)
    ensures Recover(disk, h).Some? && AtomicOutcome(s, Opened(disk, h))
  {
    var b := Inactive(s.header);
    SurvivorsArePossible(s, damage, disk, h);
    SurvivingHeader(s, disk, h);
    RecoverySucceeds(s, disk, h);
    CommittedSurvives(s, disk, h);
    if Verified(disk, b.root, b.sum) {
      VerifiedWasRevivable(s, damage, b.root, b.sum, disk);
    }
  }

  /** Right after a recovery that fell back, the tree it gave up cannot come back. */
  lemma {:induction false} FallbackIsSafeAtFirst(s: Db, t: Db, disk: Store, h: Header, damage: Damage)
    requires Inv(s) && Crash(s, t, disk, h)
    ensures !StaleSlotCouldReturn(t, damage)
  {
    var b := Inactive(t.header);
    if Revivable(t, damage, b.root, b.sum) && t.durable != t.header {
      CrashInv(s, t, disk, h);
      ContentsMayHold(t, damage, b.root, b.sum);
      HeldVerifies(t, damage, b.root, b.sum, t.disk);
    }
  }

  /** What `synced` stands for: the file as it was at the last sync or recovery. Pages not written since are
      the same in both. */
  lemma {:induction false} SyncedIsOlderDisk(pageSize: nat, states: seq<Db>, events: seq<Event>, i: nat)
    requires Run(pageSize, states, events) && i < |states|
    ensures forall x :: x !in states[i].unsynced ==> SamePage(states[i].synced, states[i].disk, x)
    ensures i == 0 || events[i - 1].SyncEvent? || events[i - 1].CrashEvent? ==> states[i].synced == states[i].disk
    ensures i > 0 && !events[i - 1].SyncEvent? && !events[i - 1].CrashEvent? ==>
              states[i].synced == states[i - 1].synced
  {
    if i > 0 {
      SyncedIsOlderDisk(pageSize, states, events, i - 1);
      assert StepAt(pageSize, states, events, i - 1);
    }
  }
}
