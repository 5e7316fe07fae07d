/** The database as a state machine: readers come and go, one writer at a time inserts and commits in
    several steps, and the machine may crash between any two steps. */
module KvDb {
  import opened Collections
  import opened KvKeys
  import opened KvPages
  import opened KvAllocator

  const HEADER_PAGE: PageId := 0
  const INITIAL_ROOT: PageId := 1

  // ----- The header page -----

  datatype Slot = Slot(root: PageId, sum: Checksum, tx: nat, next: PageId)

  datatype Header = Header(first: Slot, second: Slot, secondActive: bool)

  function Active(h: Header): Slot {
    if h.secondActive then h.second else h.first
  }

  function Inactive(h: Header): Slot {
    if h.secondActive then h.first else h.second
  }

  function Switch(h: Header): Header {
    h.(secondActive := !h.secondActive)
  }

  function WithCommit(h: Header, slot: Slot): Header {
    Switch(if h.secondActive then h.(first := slot) else h.(second := slot))
  }

  // ----- State -----

  /** A reader knows its root page and its transaction. The checksum is not part of the program's reader:
      it names the tree that was committed when the reader started. */
  datatype Reader = Reader(root: PageId, tx: nat, sum: Checksum)

  datatype Phase =
    | Inserting
    | Flushing(written: set<PageId>)
    | HeaderWritten
    | Synced
    | Freeing(queued: nat)

  datatype Writer =
    | Idle
    | Busy(phase: Phase, tx: nat, root: PageId, sum: Checksum, work: Work, ops: seq<Pair>)

  /** `disk` and `onDisk` are the file as the running program sees it. A crash may undo the writes to the
      pages in `unsynced`, which held what `synced` says at the last sync, and the header write since
      `durable`. */
  datatype Db = Db(
    disk: Store, synced: Store, unsynced: set<PageId>,
    onDisk: Header, durable: Header, header: Header,
    alloc: Allocator, tracker: Tracker, readers: map<nat, Reader>, writer: Writer)

  function EmptyLeaf(pageSize: nat): Page {
    LeafPage([], pageSize)
  }

  ghost predicate Initial(pageSize: nat, s: Db) {
    var slot := Slot(INITIAL_ROOT, Sum(EmptyLeaf(pageSize)), 0, INITIAL_ROOT + 1);
    var h := Header(slot, slot, false);
    && INITIAL_ROOT in s.disk && s.disk[INITIAL_ROOT] == EmptyLeaf(pageSize)
    && s == Db(s.disk, s.disk, {}, h, h, h, Allocator([], INITIAL_ROOT + 1, INITIAL_ROOT + 1), map[], map[], Idle)
  }

  // ----- Readers -----

  ghost predicate BeginRead(s: Db, t: Db, rid: nat) {
    var a := Active(s.header);
    && rid !in s.readers
    && t == s.(tracker := Enter(s.tracker, a.tx), readers := s.readers[rid := Reader(a.root, a.tx, a.sum)])
  }

  ghost predicate EndRead(s: Db, t: Db, rid: nat) {
    && rid in s.readers
    && t == s.(tracker := Leave(s.tracker, s.readers[rid].tx), readers := s.readers - {rid})
  }

  // ----- The writer -----

  ghost predicate BeginWrite(s: Db, t: Db) {
    var a := Active(s.header);
    && s.writer.Idle?
    && t == s.(writer := Busy(Inserting, a.tx + 1, a.root, a.sum, Work(map[], [], []), []))
  }

  ghost predicate InPhase(s: Db, phase: Phase) {
    s.writer.Busy? && s.writer.phase == phase
  }

  /** The writer takes a page id. Insertions take theirs from the ids taken so far. */
  ghost predicate TakeId(s: Db, t: Db, oldest: Option<nat>) {
    && InPhase(s, Inserting) && IsOldest(s.tracker, oldest)
    && var w := s.writer.work;
       t == s.(alloc := Allocate(s.alloc, oldest),
               writer := s.writer.(work := w.(spare := w.spare + [AllocatedId(s.alloc, oldest)])))
  }

  ghost predicate InsertPair(pageSize: nat, s: Db, t: Db, k: Key, v: Value) {
    && InPhase(s, Inserting)
    && var r := PutRoot(pageSize, s.writer.work, s.writer.root, s.writer.sum, k, v);
       && r.Done?
       && t == s.(writer := Busy(Inserting, s.writer.tx, r.id, r.sum, r.work, s.writer.ops + [Pair(k, v)]))
  }

  /** A transaction that is dropped, or that failed, leaves the file alone; its page ids are not reused. */
  ghost predicate Abort(s: Db, t: Db) {
    InPhase(s, Inserting) && t == s.(writer := Idle)
  }

  ghost predicate StartFlush(s: Db, t: Db) {
    InPhase(s, Inserting) && t == s.(writer := s.writer.(phase := Flushing({})))
  }

  ghost predicate FlushPage(s: Db, t: Db, x: PageId) {
    && s.writer.Busy? && s.writer.phase.Flushing? && x in s.writer.work.dirty && x !in s.writer.phase.written
    && t == s.(disk := s.disk[x := s.writer.work.dirty[x]], unsynced := s.unsynced + {x},
               writer := s.writer.(phase := Flushing(s.writer.phase.written + {x})))
  }

  function SlotOf(s: Db): Slot
    requires s.writer.Busy?
  {
    Slot(s.writer.root, s.writer.sum, s.writer.tx, s.alloc.next)
  }

  ghost predicate WriteHeader(s: Db, t: Db) {
    && s.writer.Busy? && s.writer.phase == Flushing(s.writer.work.dirty.Keys)
    && t == s.(onDisk := WithCommit(s.header, SlotOf(s)), writer := s.writer.(phase := HeaderWritten))
  }

  ghost predicate Sync(s: Db, t: Db) {
    && InPhase(s, HeaderWritten)
    && t == s.(synced := s.disk, unsynced := {}, durable := s.onDisk, writer := s.writer.(phase := Synced))
  }

  /** The new header, and with it the snapshot for new readers, becomes visible. */
  ghost predicate Publish(s: Db, t: Db) {
    InPhase(s, Synced) && t == s.(header := s.onDisk, writer := s.writer.(phase := Freeing(0)))
  }

  ghost predicate FreePage(s: Db, t: Db) {
    && s.writer.Busy? && s.writer.phase.Freeing? && s.writer.phase.queued < |s.writer.work.freed|
    && var n := s.writer.phase.queued;
       t == s.(alloc := Release(s.alloc, s.writer.work.freed[n], s.writer.tx),
               writer := s.writer.(phase := Freeing(n + 1)))
  }

  ghost predicate EndWrite(s: Db, t: Db) {
    s.writer.Busy? && s.writer.phase == Freeing(|s.writer.work.freed|) && t == s.(writer := Idle)
  }

  // ----- Crash and recovery -----

  /** What a crash does to a page whose last write was not synced: it leaves anything, or one of the contents
      that were written to the page, old or new. */
  datatype Damage = Torn | Whole

  ghost predicate SamePage(a: Store, b: Store, x: PageId) {
    (x in a <==> x in b) && (x in a ==> a[x] == b[x])
  }

  /** What may be on the disk after a crash. */
  ghost predicate Survives(s: Db, damage: Damage, disk: Store, h: Header) {
    && (h == s.durable || h == s.onDisk)
    && forall x {:trigger SamePage(disk, s.disk, x)} {:trigger x in disk} ::
         || SamePage(disk, s.disk, x)
         || (x in s.unsynced && (damage.Torn? || SamePage(disk, s.synced, x)))
  }

  /** `recover_header`: the active slot if its tree verifies, else the other slot if that one does. The
      header page itself is not written again. */
  ghost function Recover(disk: Store, h: Header): Option<Header> {
    if Verified(disk, Active(h).root, Active(h).sum) then Some(h)
    else if Verified(disk, Inactive(h).root, Inactive(h).sum) then Some(Switch(h))
    else None
  }

  ghost function Reopened(s: Db, disk: Store, h: Header, recovered: Header): Db {
    Db(disk, disk, {}, h, h, recovered, Allocator([], Active(recovered).next, s.alloc.reserved), map[], map[], Idle)
  }

  ghost predicate Crash(s: Db, t: Db, disk: Store, h: Header) {
    && Survives(s, Torn, disk, h)
    && Recover(disk, h).Some? && t == Reopened(s, disk, h, Recover(disk, h).value)
  }

  // ----- Runs -----

  datatype Event =
    | BeginReadEvent(rid: nat)
    | EndReadEvent(rid: nat)
    | BeginWriteEvent
    | TakeIdEvent(oldest: Option<nat>)
    | InsertEvent(key: Key, value: Value)
    | AbortEvent
    | StartFlushEvent
    | FlushPageEvent(page: PageId)
    | WriteHeaderEvent
    | SyncEvent
    | PublishEvent
    | FreePageEvent
    | EndWriteEvent
    | CrashEvent(disk: Store, survivor: Header)

  ghost predicate Next(pageSize: nat, s: Db, t: Db, e: Event) {
    match e
    case BeginReadEvent(rid) => BeginRead(s, t, rid)
    case EndReadEvent(rid) => EndRead(s, t, rid)
    case BeginWriteEvent => BeginWrite(s, t)
    case TakeIdEvent(oldest) => TakeId(s, t, oldest)
    case InsertEvent(k, v) => InsertPair(pageSize, s, t, k, v)
    case AbortEvent => Abort(s, t)
    case StartFlushEvent => StartFlush(s, t)
    case FlushPageEvent(x) => FlushPage(s, t, x)
    case WriteHeaderEvent => WriteHeader(s, t)
    case SyncEvent => Sync(s, t)
    case PublishEvent => Publish(s, t)
    case FreePageEvent => FreePage(s, t)
    case EndWriteEvent => EndWrite(s, t)
    case CrashEvent(disk, h) => Crash(s, t, disk, h)
  }

  /** A run: each state follows from the one before by one event. */
  ghost predicate Run(pageSize: nat, states: seq<Db>, events: seq<Event>) {
    && |states| == |events| + 1 && Initial(pageSize, states[0])
    && forall i {:trigger StepAt(pageSize, states, events, i)} :: 0 <= i < |events| ==>
         StepAt(pageSize, states, events, i)
  }

  ghost predicate StepAt(pageSize: nat, states: seq<Db>, events: seq<Event>, i: nat)
    requires |states| == |events| + 1 && i < |events|
  {
    Next(pageSize, states[i], states[i + 1], events[i])
  }
}
