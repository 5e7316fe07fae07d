# Verification of the Raft node and the copy-on-write key-value store

This project models the two cores of the repository in Dafny and proves what they promise over every run.

**The Raft node** (`raft-rs/src/raft.rs`). `RaftHandlers` states each handler as a function from a node and a
message to the new node, the messages it sends and the client answers it gives. `RaftNode.Process` is the node as
the program runs it: fields updated in place, the append loop, the downward commit scan, the apply loop, and the
saving of the persistent state; each method is proved to do what the handler function says. `RaftCluster` is the
cluster as a transition system over timeouts, heartbeats, client commands, deliveries and crashes, with a history
that records who stood, who voted for whom with which log, what each leader's log is, what was acknowledged, and
which tickets were accepted and answered. `RaftHistory` holds the invariant, `RaftSafety`, `RaftElection`,
`RaftReplication` and `RaftSteps` the argument that every step keeps it, and `RaftTheorems`, `RaftLiveness`,
`RaftDelivery` and `RaftReplies` what follows for every run. `RaftCommit`, `RaftTerms` and `RaftTickets` are the other
direction: what must happen and not only what may. `RaftElectability` and `RaftProgress` show that elections, replication
and replies can succeed from every state. `RaftForeignAnswer` and `RaftLostTickets` are runs of three nodes, message by
message.

**The store** (`kv`). `KvKeys` is the reference: sorted lists of pairs under upsert and lookup. `KvTree` and
`KvTreeProofs` are the B+ tree as a value, `KvTreeSpace` the space in leaf pages, and `KvTreeRoom` the room in all pages
on the way to a key, which decides whether an insertion succeeds. `KvPages` puts the tree into pages
with ids and checksums and inserts by copy-on-write; `KvPagesProofs`, `KvLedger` and `KvTransaction` prove that this
is insertion into the tree, that it keeps checksums right and that every page id is accounted for. `KvDb` is the
database as a state machine (readers, one writer, page-by-page commit, sync, publication, deferred freeing, crash and
recovery), with its invariant in `KvDbInvariant` and its theorems in `KvDbTheorems`, `KvRecovery` and `KvLostCommit`.
`KvQueue` shows that freed pages come back in order. `KvBeginRead` splits the start of a reader into the two steps that the program takes; `KvExampleSteps` holds steps that
the example runs share.
`KvPager` and `KvWriteTransaction` are the objects (reader tracker, allocator, page cache, header, transaction with
checked-out pages) whose methods are tied to those models. `KvLeafBytes`, `KvLeafPage` and `KvLeafSpace` are the bytes
of a leaf page, in an array. `Sequences` and `Collections` hold what is used everywhere.

## Assumptions

- Raft: messages may be lost, delayed and reordered, and repeated as well, except that a vote request and a granted
  vote are delivered at most once (`RaftDelivery` shows that they are never sent twice, and that the vote counter
  needs it). All nodes have the same membership without repeated ids; senders are truthful; saving succeeds; terms and
  indices are natural numbers. The state machine is deterministic: its state is the list of commands applied.
- Store, checksums: `Checksum = Sum(page)` is a free constructor. This says that the checksum has no collisions, and
  also that no page can contain, directly or through other pages, its own checksum. Termination of the verification
  of a tree (`KvPager.VerifyPages`) rests on the second point.
- Store, crashes: a header write is atomic and file growth is durable. `KvDb.Damage` names two ways in which a crash can
  treat another page that was written since the last sync. `Torn`: it may hold anything. `Whole`: it holds what was
  written to it or what it held at the last sync. Guarantees are proved for `Torn`, which covers `Whole`; failures are
  shown under `Whole`. A crash is one of the machine: what recovery finds in the file is what the disk holds, and so
  is durable.
- Store, otherwise: the only I/O error is that a page cannot be read during recovery; transaction ids do not overflow.
  An insertion takes its page ids before it starts, in steps of their own. `JunkPage` stands for a page whose node
  type is invalid. In `KvDb` a page that the disk does not have was never written; it lies inside the file, which grew
  before, and so it can be read and fails verification. In `KvPager` the file has every page that lies inside it.

## What was found

- A reply can report a command that is not the client's: stepping down does not clear `pending_applies`. The reply
  is the client's own if and only if the entry applied at its index has the term in which the command was accepted
  (`RaftReplies.PendingIsOwn`). `RaftForeignAnswer.DeposedLeaderAnswersForeignCommand` is a run of three nodes, for any
  two commands, in which it is not.
- A client can wait for ever, or be dropped, although nothing crashes. `RaftTickets.TicketFate` says exactly what becomes
  of a ticket: it is answered if and only if its node applies a command at its index, and waits otherwise, unless the
  node takes another command at the same index, which replaces it in `pending_applies`
  (`RaftTickets.LosingStrands`, `RaftTickets.StrandedForever`). `RaftLostTickets` is one run with both: a leader that is deposed, loses
  its log, and leads again applies its own first entry at the index of one client and puts a new client in the place of
  another.
- `recover_header` falls back to the older slot without writing the header page again. Until the next commit a second
  crash can open the commit that the first crash destroyed. `KvRecovery.CrashesAreAtomicIff` gives the exact condition,
  for torn and for whole page writes. `KvLostCommit.LostCommitReturns` gives a run for every two pairs that need two
  pages: the first crash loses one page of a commit, the next transaction writes the same page again, and a second
  crash, in which nothing is lost, opens the first commit.
- Insertion can fail although the page size suits the data. `KvTreeRoom.InsertFailsIff` says exactly when, in the bytes
  of the pages on the way to the key. A leaf is split by entry count, so that a split can fail although the pairs would
  fit on two pages (`KvTreeRoom.CountSplitCanOverflow`). An update that grows leaves its old region behind as dead
  space, so that a single key that grows byte by byte ends in a split of a page with one pair, which the program
  asserts cannot happen (`KvTreeRoom.UpdateCanOverflow`; `KvTreeRoom.SinglePairUpdateFailsIff` for all such pages).
  `KvTreeRoom.WorkloadFits` is a condition that a caller can check: small pairs, none of which grows, always fit.
- `begin_read` reads the snapshot and then registers the reader. In between, a commit and an allocation can take a page
  of the snapshot. `KvBeginRead.ProtectedIff` gives the exact condition for a whole run, and
  `KvBeginRead.RaceBreaksSnapshot` a run, for any two pairs that fit on a page, in which a reader sees a pair that was
  committed after its snapshot, on a page of a transaction that is not committed.

## Model

| member | source | states |
|---|---|---|
| RaftTheorems.StateMachineSafety | raft-rs/src/raft.rs:510-532 | In every run with crashes and restarts, the logs applied by any two nodes at any two moments, and the commands their machines have seen, are prefixes of one another |
| RaftTheorems.CommitSafety | raft-rs/src/raft.rs:534-560 | Any two nodes, at any two moments, hold the same entry at every index both know committed |
| RaftTheorems.LeadersAreComplete | raft-rs/src/raft.rs:416-424 | Whatever any node knew committed is in the log of every leader of its term or a later one |
| RaftSafety.LeaderCompleteness | raft-rs/src/raft.rs:534-560 | An entry committed by the majority rule in term t is held by the leader of every later term, because acknowledging and voting majorities meet and a voter's log is not ahead of the candidate's |
| RaftSafety.LogMatching | raft-rs/src/raft.rs:350-375 | Two sound logs with the same term at an index are equal up to that index |
| RaftSafety.CommittedPrefixesAgree | raft-rs/src/raft.rs:534-560 | Of two committed prefixes the shorter one is a prefix of the longer one |
| RaftTheorems.LogsMatch | raft-rs/src/raft.rs:350-375 | Log matching between any two nodes at any two moments of a run |
| RaftTheorems.RequestMatches | raft-rs/src/raft.rs:483-508 | A log that has the term of an entry of an in-flight request at its place has all entries of the request up to it, and the entry before them |
| RaftTheorems.ElectionSafety | raft-rs/src/raft.rs:455-481 | No term has two leaders, at any two moments of a run |
| RaftTheorems.CounterCountsVoters | raft-rs/src/raft.rs:455-481 | The bare vote counter never exceeds the number of distinct nodes that voted for the candidate in its term, and those that are still in the term have that vote on record |
| RaftElection.CounterIsQuorum | raft-rs/src/raft.rs:718-720 | A counter that reaches a majority stands for a majority of distinct voters that includes the candidate |
| RaftElection.TermIsFree | raft-rs/src/raft.rs:320-322 | The term of a winning candidate has no leader yet, so that the panic about two leaders is unreachable |
| RaftTheorems.CommitClamp | raft-rs/src/raft.rs:377-379 | The commit index in a request never lies beyond its last entry; clamping to the whole log gives exactly the larger of the two commit indices, and what it covers is the leader's log |
| RaftTheorems.MatchIndexIsTrue | raft-rs/src/raft.rs:269-297 | A leader's match index is true of the follower while it stays in the term, however responses were reordered |
| RaftTheorems.IndicesInOrder | raft-rs/src/raft.rs:483-532 | last applied <= commit index < log length, entry 0 is the dummy entry, and 1 <= next index <= log length for every peer of a leader |
| RaftTheorems.StepsMoveForward | raft-rs/src/raft.rs:364-382 | Between restarts no index goes back, the committed part of the log is never cut, and commands are applied once each and in order |
| RaftCommit.CommitStepExact | raft-rs/src/raft.rs:534-560 | After every step of a leader its commit index is the greatest index at which an entry of its own term is acknowledged to it by a majority with itself, or what it was before if that is greater |
| RaftCommit.CommitIsGreatest | raft-rs/src/raft.rs:510-560 | In every state of every run each node has applied all it knows committed, and a leader has committed every entry of its term that such a majority has acknowledged |
| RaftTerms.GrantedIff | raft-rs/src/raft.rs:393-453 | For a request that is not old, a vote is granted if and only if the node has voted for nobody else in that term and the candidate's last entry is of a later term, or of the same and not further down; what is stored and sent follows |
| RaftTerms.StaleRequestIsAnswered | raft-rs/src/raft.rs:299-313 | An append or vote request of an older term changes nothing and gets exactly one answer, a refusal with the newer term |
| RaftTerms.TermsSpread | raft-rs/src/raft.rs:195-209 | After a delivery the receiver is in the later of the two terms; a newer term makes it a follower, an older one changes nothing |
| RaftTerms.StaleSenderStepsDown | raft-rs/src/raft.rs:269-279 | From any state, delivering a stale leader's or candidate's request and then the answer leaves the sender a follower in the receiver's term |
| RaftTerms.RefusalNamesLeader | raft-rs/src/raft.rs:618-631 | In every run the node named to a refused client is the only one that ever leads the refusing node's term; who names nobody is a candidate or a follower that has heard from no leader |
| RaftTerms.RequestInformsClients | raft-rs/src/raft.rs:327-335 | A node that takes an append request of its term or a later one names the sender to its clients |
| RaftElectability.ElectionReachable | raft-rs/src/raft.rs:211-267 | From any state, a node that does not lead and is not behind a majority, in term and in log, becomes leader of the next term in fewer events than twice that majority: a timeout, requests and votes; it then has sent every follower a request that follows on its whole log |
| RaftCluster.StepPreserves | raft-rs/src/raft.rs:186-193 | On a well-formed cluster no enabled event reaches a panic, and the step keeps the invariant |
| RaftCluster.RunOk | raft-rs/src/raft.rs:118-150 | Every state of every run satisfies the invariant |
| RaftDelivery.OnceOnlyIsSentOnce | raft-rs/src/raft.rs:211-237 | No vote request and no granted vote is ever sent a second time |
| RaftDelivery.DuplicateVoteElects | raft-rs/src/raft.rs:475-480 | One granted vote delivered twice makes a candidate of a cluster of five a leader with two votes |
| RaftLiveness.BackOffTerminates | raft-rs/src/raft.rs:288-293 | From any state, exchanges between a leader and a follower that is not ahead of it end with the leader's whole log a prefix of the follower's, its commit index known to the follower, and the acknowledgement sent; there are at most three events for each unit of the next index, and at most three for each entry of the follower's log and three more |
| RaftLiveness.FirstRequestMatches | raft-rs/src/raft.rs:337-360 | A request that starts right after the dummy entry is never rejected for a mismatch |
| RaftLiveness.BackUp | raft-rs/src/raft.rs:288-293 | A rejection takes the follower's next index to one before the hint, but not below one, which is strictly less than before, and changes nothing else the leader knows of its followers |
| RaftLiveness.Rejected | raft-rs/src/raft.rs:339-360 | A rejection names the last index at which the follower could have matched: that of the request, or the end of its log |
| RaftProgress.CommitReachable | raft-rs/src/raft.rs:269-297 | From any state of a run, a leader whose majority is in no later term commits and applies its whole log by exchanges with that majority |
| RaftProgress.ClientIsServed | raft-rs/src/raft.rs:510-532 | A client that waits at the leader for a command in its log is answered on the way, with the commands up to its own |
| RaftProgress.CommandIsSent | raft-rs/src/raft.rs:635-655 | A leader that takes a command sends every follower a request that ends with it |
| RaftReplies.AnswersReportCommitted | raft-rs/src/raft.rs:520-529 | The output of every answer is the list of committed commands up to its index, ending with the command applied there; it is the client's own if and only if the entry applied has the term in which the command was accepted |
| RaftReplies.AnswersAgree | raft-rs/src/raft.rs:520-529 | All answers ever given belong to one history of commands |
| RaftReplies.PendingIsOwn | raft-rs/src/raft.rs:635-649 | A waiting client will hear of its own command if and only if the entry at its index has the term of acceptance |
| RaftTickets.RepliesExact | raft-rs/src/raft.rs:510-532 | In every step that is no crash, exactly those are answered at whose index a command is applied, with the committed commands up to it; everybody else goes on waiting with the same ticket |
| RaftTickets.TakenTicket | raft-rs/src/raft.rs:635-655 | A ticket that a leader takes is afterwards waiting at the index of its command, or answered |
| RaftTickets.TicketFate | raft-rs/src/raft.rs:510-532 | Over every run, as long as its node neither dies nor takes another command at its index, a ticket is answered if and only if the node has applied a command there, and waits otherwise |
| RaftTickets.LosingStrands | raft-rs/src/raft.rs:640-641 | A crash, or another command taken at the same index, leaves a waiting ticket neither waiting nor answered |
| RaftTickets.StrandedForever | raft-rs/src/raft.rs:510-532 | A ticket that is neither waiting nor answered is never answered |
| RaftLostTickets.SecondClientIsStranded | raft-rs/src/raft.rs:640-641 | For any three commands there is a run without a crash in which a re-elected leader puts a new client in the place of a waiting one, who is never answered |
| RaftLostTickets.FirstClientIsForgotten | raft-rs/src/raft.rs:516-529 | In that run the leader applies its own first entry at the index of another client, who goes on waiting unanswered |
| RaftForeignAnswer.DeposedLeaderAnswersForeignCommand | raft-rs/src/raft.rs:195-209 | For any two commands there is a run of three nodes, with two elections, a rejection by each follower, replication and commit, that ends with the deposed leader answering its client with the command of the next leader |
| RaftNode.Process.constructor | raft-rs/src/raft.rs:64-116 | A new node is the initial one or the one restored from storage |
| RaftNode.Process.PersistState | raft-rs/src/raft.rs:562-584 | Storage holds exactly term, vote and log |
| RaftNode.Process.BecomeFollower | raft-rs/src/raft.rs:195-209 | Refines the step-down function and saves |
| RaftNode.Process.BecomeCandidate | raft-rs/src/raft.rs:211-237 | Refines standing for election, including the cluster of one |
| RaftNode.Process.BecomeLeader | raft-rs/src/raft.rs:239-267 | Refines taking the lead: first entry, indices, commit, heartbeats |
| RaftNode.Process.AppendAll | raft-rs/src/raft.rs:364-375 | The truncate-and-push loop computes the merge of log and entries |
| RaftNode.Process.AppendRequestReceived | raft-rs/src/raft.rs:299-391 | Refines the handler of append requests; the answer is written out: the node's term and a refusal to an old request, the last possible match to one that does not match, the last index covered to one that does |
| RaftNode.Process.AppendResponseReceived | raft-rs/src/raft.rs:269-297 | Refines the handler of append responses; the next and match indices are written out, as is the step down to a newer term |
| RaftNode.Process.VoteRequestReceived | raft-rs/src/raft.rs:393-453 | Refines the handler of vote requests; when a vote is granted, what is stored and what is answered is written out; nothing is sent before it is saved |
| RaftNode.Process.VoteResponseReceived | raft-rs/src/raft.rs:455-481 | Refines the handler of vote responses; the candidate leads if and only if the votes counted are more than half |
| RaftNode.Process.HandleMessage | raft-rs/src/raft.rs:186-193 | Refines the dispatch of messages to the handlers |
| RaftNode.Process.OnHeartbeat | raft-rs/src/raft.rs:483-508 | Sends every peer the whole suffix from its next index |
| RaftNode.Process.ApplyCommitted | raft-rs/src/raft.rs:510-532 | The apply loop refines its recursive specification, answers included |
| RaftNode.Process.AdvanceCommit | raft-rs/src/raft.rs:534-560 | The commit index becomes the last index of an entry of the leader's term that it and enough followers for a majority hold, or stays |
| RaftNode.Process.CountReplicas | raft-rs/src/raft.rs:545-549 | The inner count is the number of followers whose match index is the entry's or beyond |
| RaftNode.Process.ClientApply | raft-rs/src/raft.rs:616-655 | Refines a client command; who waits beyond the applied index still waits, and so does the new client; it is refused if and only if the node does not lead, with the leader the node knows of |
| KvKeys.LookupUpsert | kv/src/btree/leaf_node.rs:157-166 | A sorted list under upsert is a map under update |
| KvKeys.LessIs | kv/src/btree/leaf_node.rs:61-67 | Keys are ordered by their first difference: the key that ends or has the smaller byte there comes first |
| KvTreeProofs.InsertRefinesUpdate | kv/src/btree/tree.rs:93-127 | A successful insertion gives a balanced search tree whose pairs are the old ones with the key set; every key answers as the updated map does |
| KvTreeProofs.InsertIntoAchieves | kv/src/btree/tree.rs:129-237 | Insertion below any node keeps depth and key range; a split's separator lies strictly inside the range |
| KvTreeProofs.AddKidPosition | kv/src/btree/branch_node.rs:175-193 | The separator of a split child goes directly behind that child, and never replaces another one |
| KvTreeProofs.GetIsLookup | kv/src/btree/tree.rs:77-91 | Descending by separators answers as the tree's list of pairs does |
| KvTreeSpace.SplitFits | kv/src/btree/leaf_node.rs:168-179 | If the new pair costs no more than the table rows of half the pairs, both halves of a split fit, whatever dead space the page had |
| KvTreeSpace.LeafPutSized | kv/src/btree/leaf_node.rs:262-272 | In-place insertion keeps table and data apart and all pairs inside the page |
| KvTreeRoom.InsertFailsIff | kv/src/btree/tree.rs:93-237 | On every search tree an insertion fails if and only if the pair does not fit on its leaf and the leaf has fewer than two pairs or a half too large for a page, or a branch on the way up that has to be split has a half too large, or the separator is too long for a new root; all in bytes of the pages on the way |
| KvTreeRoom.SinglePairUpdateFailsIff | kv/src/btree/leaf_node.rs:261-272 | On a page with one pair and data from `end` on, an update of its key fails if and only if 88 + key + value bytes exceed `end` |
| KvTreeRoom.BranchSplitFits | kv/src/btree/branch_node.rs:195-206 | If a separator costs no more than the table rows of half the children, both halves of a split branch fit |
| KvTreeRoom.InsertHasRoom | kv/src/btree/tree.rs:93-237 | On a tree of small pairs whose pages suit them, an insertion of a small pair that does not make an existing one grow succeeds, and leaves a tree of that kind |
| KvTreeRoom.WorkloadFits | kv/src/btree/tree.rs:93-237 | Every list of insertions of small pairs into an empty tree, none of which makes a pair grow, succeeds, and the tree holds exactly the pairs set last |
| KvTreeRoom.CountSplitCanOverflow | kv/src/btree/leaf_node.rs:168-179 | Three pairs inserted in order fit on one page and a fourth would fit on another, but the insertion of the fourth fails |
| KvTreeRoom.UpdateCanOverflow | kv/src/btree/leaf_node.rs:261-272 | A key set ninety times to values that grow by one byte: eighty-nine insertions succeed, the ninetieth fails, although 4096 bytes suit pairs of that size |
| KvPagesProofs.PutRefines | kv/src/btree/tree.rs:129-237 | Copy-on-write insertion on pages has the outcome that insertion has on the tree |
| KvLedger.PutAccounts | kv/src/btree/tree.rs:129-237 | Insertion into a verified tree gives verified trees without repeated pages; it takes its pages from the supply, frees exactly the committed pages it replaces, and touches nothing else |
| KvTransaction.InsertKeepsWork | kv/src/btree/tree.rs:93-127 | After any insertion the root checksum is right, the tree consists of the committed pages not freed and the transaction's own pages, and exactly one key is set |
| KvTransaction.PutRootFailsIff | kv/src/btree/tree.rs:93-127 | With enough page ids, copy-on-write insertion into a sound tree fails if and only if there is no room on the way to the key |
| KvAllocator.AllocateOk | kv/src/pages/page_allocator.rs:50-76 | The front of the queue is handed out if and only if every transaction being read is younger than the one that freed it, and a new page otherwise; the page lies inside the file and is not queued any more; the queue stays ordered and free of repetitions, and the file grows by whole batches only when it is full |
| KvAllocator.ReuseIsSafe | kv/src/pages/page_allocator.rs:53-64 | A reused page was freed before every transaction that is still being read |
| KvAllocator.ReleaseOk | kv/src/pages/page_allocator.rs:82-88 | A freed page joins the queue behind all others |
| KvDbTheorems.RunInv | kv/src/db.rs:27-30 | Every reachable state of the database satisfies the invariant |
| KvDbTheorems.SnapshotPages | kv/src/pages/page_allocator.rs:50-76 | No page of an open reader's tree is overwritten while the reader is open |
| KvDbTheorems.SnapshotIsolation | kv/src/transactions/read_transaction.rs:36-47 | Every read is answered by the map that was committed when the reader started, whatever other readers, the writer and its commits do between its page loads |
| KvBeginRead.MoveIff | kv/src/db.rs:56-65 | With `begin_read` in two steps, a step leaves every reader protected if and only if it does not allocate a page of a snapshot whose reader is not registered yet |
| KvBeginRead.ProtectedIff | kv/src/db.rs:56-65 | All readers are protected throughout a run if and only if no allocation of the run does so |
| KvBeginRead.DisturbingPageWasFreedLater | kv/src/pages/page_allocator.rs:50-64 | Such an allocation reuses a page that was freed by a later transaction than the snapshot's |
| KvBeginRead.TwoStepSnapshotIsolation | kv/src/db.rs:56-65 | In a run without such an allocation every read is answered by the map that was committed when the snapshot was read |
| KvBeginRead.RaceBreaksSnapshot | kv/src/db.rs:56-65 | For every two pairs that fit on a page there is a run in which a reader of the empty database reads the first of them |
| KvDbTheorems.PagesConserved | kv/src/transactions/write_transaction.rs:95-111 | In every reachable state the header page, the committed tree, the writer's pages, replaced pages, the queue and unused ids are disjoint; nothing is freed or queued twice; all ids lie inside the file |
| KvQueue.TakeIdExact | kv/src/pages/page_allocator.rs:50-76 | An allocation takes the front of the queue if every open reader started after the transaction that freed it, and a new page otherwise |
| KvQueue.QueueIsServed | kv/src/pages/page_allocator.rs:50-88 | Over every run, between crashes: what was queued followed by what is freed since equals what has been taken, in this order, followed by what is queued now |
| KvQueue.FreedPageComesBack | kv/src/pages/page_allocator.rs:50-76 | As long as no reader as old as its transaction is open, the page at a position of the queue is handed out after as many allocations |
| KvDbTheorems.TreesVerify | kv/src/btree/tree.rs:53-75 | In every reachable state the committed tree and the transaction's tree have right checksums; the latter holds the transaction's insertions in order |
| KvDbTheorems.PublishedMap | kv/src/db.rs:184-211 | A publication applies the transaction's insertions to the committed map; no other step but a crash changes it |
| KvRecovery.RecoveryOpensSoundTree | kv/src/db.rs:108-140 | After any crash, whatever became of unsynced writes, recovery succeeds and opens a sound tree |
| KvRecovery.CrashAtomicity | kv/src/transactions/write_transaction.rs:62-85 | Whenever no slot that an earlier recovery gave up could come back, which is the exact condition, a crash at any point of a commit, even one that leaves garbage in unsynced pages, opens the published map or the one with all insertions of the commit in flight |
| KvRecovery.SyncedCommitSurvives | kv/src/db.rs:199-208 | Once the sync is done every crash opens the new commit; a published commit is what any crash opens until the next header write |
| KvRecovery.CleanUntilCrash | kv/src/db.rs:184-211 | A publication makes the header page name the published slot, and it does so until the next crash; while it does, no slot that was given up can come back |
| KvRecovery.CrashesAreAtomicIff | kv/src/db.rs:108-140 | For torn and for whole page writes: all crashes in a reachable state are atomic if and only if the slot that recovery gave up is not both named by the header page and such that a crash can leave each of its pages with its content |
| KvRecovery.FallbackIsSafeAtFirst | kv/src/db.rs:130-139 | Right after a recovery the slot it gave up cannot come back |
| KvRecovery.SyncedIsOlderDisk | kv/src/pages/page_io.rs:61-63 | What a whole page write may fall back to is the file at the last sync or recovery, and pages not written since are the same |
| KvLostCommit.LostCommitReturns | kv/src/db.rs:130-139 | For every two pairs that need two pages there is a run with whole page writes after which a crash that loses nothing opens the commit that the first crash destroyed: neither the published map nor the one in flight |
| KvLostCommit.LostCommitRun | kv/src/transactions/write_transaction.rs:62-85 | Two transactions with a crash between them that loses one page are a run of the state machine in which each page holds what was written or what was synced |
| KvPager.ReadTracker.BeginRead | kv/src/transactions/read_transaction.rs:56-70 | Counts the reader in |
| KvPager.ReadTracker.EndRead | kv/src/transactions/read_transaction.rs:78-90 | Counts the reader out, and forgets a transaction without readers |
| KvPager.ReadTracker.OldestActive | kv/src/transactions/read_transaction.rs:72-75 | The least transaction that has a reader, if any |
| KvPager.PageAllocator.AllocatePageId | kv/src/pages/page_allocator.rs:50-76 | Hands out the front of the queue if every key of the reader tracker exceeds its transaction, and the next new id otherwise; what becomes of queue, next id and reserved pages is written out |
| KvPager.PageAllocator.FreePage | kv/src/pages/page_allocator.rs:82-88 | Refines queueing |
| KvPager.PageIO.ReadPage | kv/src/pages/page_io.rs:27-38 | Returns the page of the file, cached or not, and keeps the cache coherent |
| KvPager.PageIO.WritePage | kv/src/pages/page_io.rs:40-55 | Changes one page of the file and keeps the cache coherent |
| KvPager.PageIO.SyncData | kv/src/pages/page_io.rs:61-63 | Afterwards file and header page are durable as they are |
| KvPager.VerifyPages | kv/src/btree/tree.rs:53-75 | Terminates; accepts exactly the trees all of whose pages have the expected checksums, reports the first mismatch, and reports the first page that cannot be read |
| KvPager.VerdictIs | kv/src/btree/tree.rs:53-75 | The verdict on a tree is acceptance if and only if the tree verifies |
| KvPager.GetValue | kv/src/btree/tree.rs:77-91 | The loop from the root of a sound tree answers as the map does |
| KvPager.RecoverHeader | kv/src/db.rs:108-140 | Returns the active slot if it verifies; gives up with an error if a page of it cannot be read; else the other slot if that verifies; else rejects the file |
| KvPager.CommitState.PublishCommit | kv/src/db.rs:184-211 | The new slot becomes active, the old active slot stays as it was; header page, durable header and memory agree, and every page written is durable |
| KvWriteTransaction.WriteTransaction.CheckOut | kv/src/transactions/write_transaction.rs:170-185 | Takes a dirty page out; the panics are its preconditions |
| KvWriteTransaction.WriteTransaction.ReturnPage | kv/src/transactions/write_transaction.rs:187-198 | Puts a checked-out page back; the panics are its preconditions |
| KvWriteTransaction.WriteTransaction.CowPage | kv/src/transactions/write_transaction.rs:100-111 | A dirty page is checked out as it is, any other page is copied to an id on offer and freed |
| KvWriteTransaction.WriteTransaction.InsertRecursive | kv/src/btree/tree.rs:129-237 | Does what `Put` does with the ids the allocator gave, returns every page it took, and reaches no panic of the page tracker |
| KvWriteTransaction.WriteTransaction.InsertRoot | kv/src/btree/tree.rs:93-127 | Does what `PutRoot` does, growing a new root if the old one split |
| KvWriteTransaction.WriteTransaction.Insert | kv/src/transactions/write_transaction.rs:87-93 | Succeeds if and only if there is room on the way to the key; a successful insertion sets one key and keeps the transaction sound; a failed transaction refuses and stays as it is |
| KvWriteTransaction.WriteTransaction.Commit | kv/src/transactions/write_transaction.rs:62-85 | Writes all dirty pages and publishes a tree that verifies, both durable; queues the freed pages in order, after which the allocator is in order and offers no page of the new tree; a failed transaction changes nothing |
| KvLeafBytes.LittleEndianOk | kv/src/btree/leaf_node.rs:9-23 | Little-endian 64-bit fields read back what was written |
| KvLeafBytes.ByteWeight | kv/src/btree/leaf_node.rs:9-23 | One more in a byte of a field is 256 to the power of its position more in the number |
| KvLeafBytes.MetaRoundTrip | kv/src/btree/leaf_node.rs:106-131 | A table row read back gives the sizes and offsets written |
| KvLeafPage.SearchEntry | kv/src/btree/leaf_node.rs:61-67 | Binary search in the bytes finds the key or the place where it belongs |
| KvLeafPage.GetPairValue | kv/src/btree/leaf_node.rs:73-81 | Reads the value that the list of pairs has for the key |
| KvLeafPage.Fits | kv/src/btree/leaf_node.rs:262-272 | The space check on bytes is that of the leaf |
| KvLeafPage.InsertInPlace | kv/src/btree/leaf_node.rs:274-343 | In-place insertion into the bytes gives the old pairs with the key set, keeps all regions disjoint and clear of the table, and moves the end of the data as the leaf model says |
| KvLeafPage.BuildEntries | kv/src/btree/leaf_node.rs:185-221 | Parsing a page that was built gives back exactly the pairs; the page is well formed and packed |
| KvLeafSpace.FormedIsSized | kv/src/btree/leaf_node.rs:262-272 | On every well-formed page, dead space included, table and pairs together fit |
| KvLeafSpace.InPlaceMatchesRebuild | kv/src/btree/leaf_node.rs:157-221 | Where in-place insertion is possible the page can be rebuilt, with the same list of pairs |
| KvLeafSpace.SplitFitsPage | kv/src/btree/leaf_node.rs:168-179 | The split space bound for the bytes of a page |

## Left out

- The Tokio runtime, channels, timers and transport: they appear as events and lost messages.
- Configuration, handles, status and log queries: no property worth proving.
- Serialization and storage errors: persistence is an exact save and load, and writing to the store has no I/O errors.
- Election liveness: it depends on timing.
- Clearing of reply channels whose clients are gone: a reply is modelled as given, whether or not anyone receives it.
- Creation of the database file: the run starts from a file that is durable, although the program does not sync it.
- The bytes of branch pages and of the header page: branches are lists of children and the header is a value.
- The hash function, the cache's eviction policy, byte-order casts, file system calls and locks.
- Insertions that do not fit after a split: the model reports them as unsupported; what the program does then depends on debug assertions.
- KvDbTheorems.SnapshotIsolation: page loads see the file; that the cache shows the same pages is proved of `PageIO` alone, for one thread.
- KvPager.VerifyPages: the only read error modelled is a page outside the file; zerocopy casts do not fail.
- KvWriteTransaction.WriteTransaction.CheckOut: the page that a transaction holds is a value, not a buffer of bytes; the bytes of leaf pages are modelled in `KvLeafPage`.
