/** Replication: leader growth, the append loop, acknowledgements, the commit rule and in-order
    application keep the invariants. */
module RaftReplication {
  import opened Collections
  import opened RaftTypes
  import opened RaftHandlers
  import opened RaftHistory
  import opened RaftSafety
  import opened RaftSteps

  // ----- A leader takes a client command -----

  ghost function Accept(h: History, n: Node, command: Command, ticket: Ticket): History {
    var log := n.log + [Entry(n.term, Apply(command))];
    h.(leaderLog := h.leaderLog[n.term := log],
       acks := h.acks[Seat(n.term, n.id) := |log|],
       accepted := h.accepted[ticket := Acceptance(n.id, n.term, |n.log|, command)])
  }

  lemma AppendedLogsOk(ll: map<Term, Log>, t: Term, e: Entry)
    requires LeaderLogsOk(ll) && t in ll && t != 0 && e.term == t
    ensures LogsGrow(ll, ll[t := ll[t] + [e]])
    ensures LeaderLogsOk(ll[t := ll[t] + [e]])
  {
    var longer := ll[t] + [e];
    var kk := ll[t := longer];
    assert LeaderLogOk(ll, t);
    forall i | 0 <= i < |longer|
      ensures Holds(kk, longer, longer[i].term, i)
    {
      if i < |ll[t]| {
        assert Holds(ll, ll[t], ll[t][i].term, i);
        HoldsGrows(ll, kk, ll[t], ll[t][i].term, i);
        HoldsExtends(kk, ll[t], longer, ll[t][i].term, i);
      }
    }
    forall s | s in kk
      ensures LeaderLogOk(kk, s)
    {
      if s != t {
        assert LeaderLogOk(ll, s);
        SoundGrows(ll, kk, ll[s]);
      }
    }
  }

  lemma AcceptGrows(h: History, n: Node, command: Command, ticket: Ticket)
    requires n.term in h.leaderOf && h.leaderOf[n.term] == n.id && ticket !in h.accepted
    requires Seat(n.term, n.id) in h.acks && h.acks[Seat(n.term, n.id)] <= |n.log|
    requires LogsGrow(h.leaderLog, Accept(h, n, command, ticket).leaderLog)
    ensures Extends(h, Accept(h, n, command, ticket), n.id)
  {
    var k := Accept(h, n, command, ticket);
    assert Grows(h, k);
    forall p | p != n.id
      ensures SameFor(h, k, p)
    {
    }
  }

  lemma AcceptExtends(h: History, n: Node, command: Command, ticket: Ticket)
    requires HistoryOk(h) && NodeOk(h, n) && n.role.Leader? && ticket !in h.accepted
    ensures Extends(h, Accept(h, n, command, ticket), n.id)
    ensures LeaderLogsOk(Accept(h, n, command, ticket).leaderLog)
  {
    AppendedLogsOk(h.leaderLog, n.term, Entry(n.term, Apply(command)));
    AcceptGrows(h, n, command, ticket);
  }

  lemma AcceptHistoryOk(h: History, n: Node, command: Command, ticket: Ticket)
    requires HistoryOk(h) && NodeOk(h, n) && n.role.Leader? && ticket !in h.accepted
    ensures HistoryOk(Accept(h, n, command, ticket))
  {
    var k := Accept(h, n, command, ticket);
    AcceptExtends(h, n, command, ticket);
    HistoryGrows(h, k);
  }

  lemma AcceptKeeps(h: History, n: Node, command: Command, ticket: Ticket)
    requires HistoryOk(h) && NodeOk(h, n) && n.role.Leader?
    requires Grows(h, Accept(h, n, command, ticket))
    ensures Keeps(Accept(h, n, command, ticket), n.id, ClientAppend(n, command, ticket).log, n.term + 1)
  {
    var k := Accept(h, n, command, ticket);
    var log := ClientAppend(n, command, ticket).log;
    forall t: Term, i: nat | t < n.term + 1 && Acked(k, t, n.id, i)
      ensures Holds(k.leaderLog, log, t, i) || Lost(k.leaderLog, t, i, n.term + 1)
    {
      if t < n.term {
        assert Acked(h, t, n.id, i);
        if Holds(h.leaderLog, n.log, t, i) {
          HoldsGrows(h.leaderLog, k.leaderLog, n.log, t, i);
          HoldsExtends(k.leaderLog, n.log, log, t, i);
        } else {
          LostGrows(h.leaderLog, k.leaderLog, t, i, n.term + 1, n.term + 1);
        }
      }
    }
  }

  lemma AcceptLogOk(h: History, n: Node, command: Command, ticket: Ticket)
    requires HistoryOk(h) && NodeOk(h, n) && n.role.Leader? && ticket !in h.accepted
    ensures LogOk(Accept(h, n, command, ticket), ClientAppend(n, command, ticket))
  {
    var k := Accept(h, n, command, ticket);
    AcceptExtends(h, n, command, ticket);
    AcceptKeeps(h, n, command, ticket);
    assert LeaderLogOk(k.leaderLog, n.term);
    AppendedLogOk(h, k, n, Entry(n.term, Apply(command)), ClientAppend(n, command, ticket));
  }

  lemma AcceptRoleOk(h: History, n: Node, command: Command, ticket: Ticket)
    requires RoleOk(h, n) && n.role.Leader? && Grows(h, Accept(h, n, command, ticket))
    ensures RoleOk(Accept(h, n, command, ticket), ClientAppend(n, command, ticket))
  {
    var k := Accept(h, n, command, ticket);
    forall p | p in n.role.matchIndex
      ensures n.role.matchIndex[p] == 0 || Acked(k, n.term, p, n.role.matchIndex[p])
    {
      assert n.role.matchIndex[p] == 0 || Acked(h, n.term, p, n.role.matchIndex[p]);
    }
  }

  lemma AcceptOk(h: History, n: Node, command: Command, ticket: Ticket)
    requires HistoryOk(h) && NodeOk(h, n) && n.role.Leader? && ticket !in h.accepted
    ensures var k := Accept(h, n, command, ticket);
            HistoryOk(k) && NodeOk(k, ClientAppend(n, command, ticket)) && Extends(h, k, n.id)
  {
    AcceptExtends(h, n, command, ticket);
    AcceptHistoryOk(h, n, command, ticket);
    AcceptLogOk(h, n, command, ticket);
    AcceptRoleOk(h, n, command, ticket);
  }

  // ----- A leader sends its log -----

  /** A request states the leader's log truthfully and never announces a commit beyond its end. */
  lemma HeartbeatsOk(h: History, n: Node, e: Envelope)
    requires HistoryOk(h) && NodeOk(h, n) && n.role.Leader? && IndicesOk(n)
    requires e in Heartbeats(n)
    ensures MessageOk(h, e) && e.src == n.id && e.msg.term == n.term
  {
    var i :| 0 <= i < |n.peers| && e == AppendRequestTo(n, n.peers[i]);
    assert n.peers[i] in Elems(n.peers);
    var next := n.role.nextIndex[n.peers[i]];
    SuffixSlice(n.log, next);
  }

  lemma SuffixSlice(log: Log, next: nat)
    requires next <= |log|
    ensures log[next..] == log[next..next + |log[next..]|]
  {
  }

  lemma LeaderIndices(h: History, n: Node)
    requires NodeOk(h, n)
    ensures IndicesOk(n) && Ready(n)
  {
    if n.role.Leader? {
      forall p | p in n.peers
        ensures p in n.role.nextIndex && 1 <= n.role.nextIndex[p] <= |n.log|
      {
        assert p in Elems(n.peers);
      }
    }
  }

  // ----- A leader hears back -----

  /** What a response makes the leader believe about a follower is true. */
  lemma RecordOk(h: History, n: Node, e: Envelope)
    requires HistoryOk(h) && NodeOk(h, n) && n.role.Leader?
    requires MessageOk(h, e) && e.msg.AppendResponse? && e.dst == n.id && e.msg.term == n.term
    ensures NodeOk(h, RecordResponse(n, e.src, e.msg))
  {
    RecordRoleOk(h, n, e);
    RoleChangeOk(h, n, RecordResponse(n, e.src, e.msg).role);
  }

  lemma RecordRoleOk(h: History, n: Node, e: Envelope)
    requires HistoryOk(h) && NodeOk(h, n) && n.role.Leader?
    requires MessageOk(h, e) && e.msg.AppendResponse? && e.dst == n.id && e.msg.term == n.term
    ensures RoleOk(h, RecordResponse(n, e.src, e.msg))
  {
    if e.msg.success {
      assert Acked(h, n.term, e.src, e.msg.matchIndex);
    }
  }

  // ----- The commit rule -----

  /** A majority of match indices is a majority of acknowledgements. */
  lemma ReplicasCommit(h: History, n: Node, index: nat)
    requires HistoryOk(h) && NodeOk(h, n) && n.role.Leader?
    requires 0 < index < |n.log| && Committable(n, index)
    ensures Committed(h, n.term, index)
  {
    var replicas := Replicas(n.role.matchIndex, index);
    forall p | p in replicas
      ensures p in Ackers(h, n.term, index)
    {
      assert Acked(h, n.term, p, n.role.matchIndex[p]);
      assert Acked(h, n.term, p, index);
    }
    assert Acked(h, n.term, n.id, index);
    SubsetCardinality(replicas + {n.id}, Ackers(h, n.term, index));
    NoRepeatsCardinality(n.peers);
    assert h.members == Elems(n.peers) + {n.id};
  }

  lemma AdvanceOk(h: History, n: Node)
    requires HistoryOk(h) && NodeOk(h, n)
    ensures NodeOk(h, AdvanceCommit(n))
  {
    if n.role.Leader? {
      var c := ScanDown(n, |n.log| - 1);
      if c > n.commitIndex {
        ReplicasCommit(h, n, c);
        assert Holds(h.leaderLog, n.log, n.term, c);
        assert CommitOk(h, n.log, c, n.term);
      }
      assert LogOk(h, AdvanceCommit(n));
    }
  }

  // ----- Applying -----

  ghost function Release(h: History, answers: seq<Answer>): History {
    h.(answers := h.answers + Elems(answers))
  }

  lemma CommandsStep(log: Log, i: nat)
    requires i + 1 < |log|
    ensures Commands(log[..i + 2]) ==
            Commands(log[..i + 1]) + (if log[i + 1].command.Apply? then [log[i + 1].command.command] else [])
  {
    assert log[..i + 2][..i + 1] == log[..i + 1];
  }

  /** The answer released at an index carries the committed commands up to that index, and it is the
      client's own command exactly when the entry there still has the term it was accepted in. */
  lemma AnswerOneOk(h: History, n: Node, a: Answer)
    requires HistoryOk(h) && NodeOk(h, n) && n.lastApplied < n.commitIndex
    requires a in AnswersOfOne(n)
    ensures AnswerOk(h, a)
  {
    var index := n.lastApplied + 1;
    assert a == Answer(n.pending[index], index, n.log[index], n.machine + [n.log[index].command.command]);
    CommandsStep(n.log, n.lastApplied);
    var acc := h.accepted[a.ticket];
    assert AcceptanceOk(h, a.ticket);
    if a.entry.term == acc.term {
      assert Holds(h.leaderLog, n.log, n.log[index].term, index);
      assert h.leaderLog[acc.term][..index + 1][index] == n.log[..index + 1][index];
    }
    var t, i := CommitWitness(h, n.log, n.commitIndex, n.term);
    HoldsLess(h.leaderLog, n.log, t, n.commitIndex, index);
    assert h.leaderLog[t][..index + 1][index] == n.log[..index + 1][index];
    assert AnswerFrom(h, a, t, i);
  }

  lemma ReleaseHistoryOk(h: History, id: NodeId, answers: seq<Answer>)
    requires HistoryOk(h) && forall a :: a in answers ==> AnswerOk(h, a)
    ensures HistoryOk(Release(h, answers)) && Extends(h, Release(h, answers), id) && SameFor(h, Release(h, answers), id)
  {
    var k := Release(h, answers);
    assert Grows(h, k);
    forall a | a in k.answers && a !in h.answers
      ensures AnswerOk(k, a)
    {
      AnswerGrows(h, k, a);
    }
    HistoryGrows(h, k);
  }

  lemma ReleaseOk(h: History, n: Node, answers: seq<Answer>)
    requires HistoryOk(h) && NodeOk(h, n)
    requires forall a :: a in answers ==> AnswerOk(h, a)
    ensures HistoryOk(Release(h, answers)) && NodeOk(Release(h, answers), n)
    ensures Extends(h, Release(h, answers), n.id)
  {
    ReleaseHistoryOk(h, n.id, answers);
    BystanderOk(h, Release(h, answers), n);
  }

  lemma ApplyOneOk(h: History, n: Node)
    requires HistoryOk(h) && NodeOk(h, n) && n.lastApplied < n.commitIndex
    ensures NodeOk(h, ApplyOne(n))
  {
    CommandsStep(n.log, n.lastApplied);
    assert LogOk(h, ApplyOne(n));
    assert RoleOk(h, ApplyOne(n));
  }

  lemma {:induction false} ApplyOk(h: History, n: Node)
    requires HistoryOk(h) && NodeOk(h, n)
    ensures NodeOk(h, ApplyCommitted(n))
    ensures forall a :: a in ApplyAnswers(n) ==> AnswerOk(h, a)
    decreases n.commitIndex - n.lastApplied
  {
    if n.lastApplied < n.commitIndex {
      ApplyOneOk(h, n);
      ApplyOk(h, ApplyOne(n));
      forall a | a in ApplyAnswers(n)
        ensures AnswerOk(h, a)
      {
        if a in AnswersOfOne(n) {
          AnswerOneOk(h, n, a);
        }
      }
    }
  }

  // ----- A follower takes entries -----

  /** The log ends or conflicts with the leader's at `j`, not after `m`. */
  ghost predicate CutAt(leader: Log, log: Log, m: nat, j: nat) {
    0 < j <= m < |leader| && j <= |log| && (j == |log| || log[j].term != leader[j].term)
  }

  /** What the append loop leaves behind: either the old log, which had everything already, or
      exactly the leader's log up to the last entry of the request. */
  lemma MergeShape(ll: map<Term, Log>, log: Log, t: Term, prev: nat, entries: seq<Entry>)
    requires LeaderLogsOk(ll) && Sound(ll, log) && t in ll
    requires prev + |entries| < |ll[t]| && entries == ll[t][prev + 1..prev + 1 + |entries|]
    requires prev < |log| && log[prev].term == ll[t][prev].term
    ensures var merged := Merge(log, prev + 1, entries);
            var m := prev + |entries|;
            && Holds(ll, merged, t, m)
            && (|| merged == log
                || (merged == ll[t][..m + 1] && exists j :: CutAt(ll[t], log, m, j)))
  {
    var leader := ll[t];
    var k := MatchLength(log, prev + 1, entries);
    var m := prev + |entries|;
    assert LeaderLogOk(ll, t);
    assert log[prev + k].term == leader[prev + k].term by {
      if k > 0 {
        assert log[prev + 1 + (k - 1)].term == entries[k - 1].term;
      }
    }
    LogMatching(ll, log, leader, prev + k);
    if k < |entries| {
      SpliceIsPrefix(leader, log, prev + 1, k, entries);
      assert prev + 1 + k < |log| ==> entries[k] == leader[prev + 1 + k];
      assert CutAt(leader, log, m, prev + 1 + k);
    }
  }

  lemma SpliceIsPrefix(leader: Log, log: Log, at: nat, k: nat, entries: seq<Entry>)
    requires at + |entries| <= |leader| && entries == leader[at..at + |entries|]
    requires k <= |entries| && at + k <= |log| && log[..at + k] == leader[..at + k]
    ensures log[..at + k] + entries[k..] == leader[..at + |entries|]
  {
    assert entries[k..] == leader[at + k..at + |entries|];
  }

  /** Afterwards the log holds the leader's up to the last entry of the request. */
  lemma MergeTakes(ll: map<Term, Log>, log: Log, t: Term, prev: nat, entries: seq<Entry>)
    requires LeaderLogsOk(ll) && Sound(ll, log) && t in ll
    requires prev + |entries| < |ll[t]| && entries == ll[t][prev + 1..prev + 1 + |entries|]
    requires prev < |log| && log[prev].term == ll[t][prev].term
    ensures var merged := Merge(log, prev + 1, entries);
            && Holds(ll, merged, t, prev + |entries|)
            && (merged == log || merged == ll[t][..prev + |entries| + 1])
  {
    MergeShape(ll, log, t, prev, entries);
  }

  /** The append loop removes no prefix that the leader shares. */
  lemma MergeHolds(ll: map<Term, Log>, log: Log, t: Term, prev: nat, entries: seq<Entry>, s: Term, i: nat)
    requires LeaderLogsOk(ll) && Sound(ll, log) && t in ll
    requires prev + |entries| < |ll[t]| && entries == ll[t][prev + 1..prev + 1 + |entries|]
    requires prev < |log| && log[prev].term == ll[t][prev].term
    requires Holds(ll, log, s, i) && Holds(ll, ll[t], s, i)
    ensures Holds(ll, Merge(log, prev + 1, entries), s, i)
  {
    var m := prev + |entries|;
    var merged := Merge(log, prev + 1, entries);
    MergeShape(ll, log, t, prev, entries);
    if merged != log {
      var j :| CutAt(ll[t], log, m, j);
      forall x | 0 <= x <= i
        ensures log[x] == ll[t][x]
      {
        assert log[..i + 1][x] == ll[t][..i + 1][x];
      }
      assert i < j;
      assert merged[..i + 1] == ll[t][..i + 1];
    }
  }

  lemma MergeSound(ll: map<Term, Log>, log: Log, t: Term, prev: nat, entries: seq<Entry>)
    requires LeaderLogsOk(ll) && Sound(ll, log) && t in ll
    requires prev + |entries| < |ll[t]| && entries == ll[t][prev + 1..prev + 1 + |entries|]
    requires prev < |log| && log[prev].term == ll[t][prev].term
    requires LastTerm(log) <= t
    ensures var merged := Merge(log, prev + 1, entries);
            Sound(ll, merged) && LastTerm(merged) <= t && merged[0] == log[0] == GENESIS
  {
    MergeTakes(ll, log, t, prev, entries);
    SoundIsSorted(ll, log);
    var merged := Merge(log, prev + 1, entries);
    if merged != log {
      assert merged == ll[t][..prev + |entries| + 1];
      LeaderPrefixSound(ll, t, prev + |entries| + 1);
    }
  }

  lemma LeaderPrefixSound(ll: map<Term, Log>, t: Term, i: nat)
    requires LeaderLogsOk(ll) && t in ll && 0 < i <= |ll[t]|
    ensures Sound(ll, ll[t][..i]) && LastTerm(ll[t][..i]) <= t && ll[t][..i][0] == GENESIS
  {
    assert LeaderLogOk(ll, t);
    SoundIsSorted(ll, ll[t]);
    PrefixSound(ll, ll[t], i);
  }

  ghost function AckedSoFar(h: History, seat: Seat): nat {
    if seat in h.acks then h.acks[seat] else 0
  }

  ghost function Max(a: nat, b: nat): nat {
    if a < b then b else a
  }

  ghost function Acknowledge(h: History, n: Node, length: nat): History {
    var seat := Seat(n.term, n.id);
    h.(acks := h.acks[seat := Max(AckedSoFar(h, seat), length)])
  }

  /** A follower in the leader's term, about to take the entries of `msg`. */
  ghost predicate Taking(h: History, n: Node, e: Envelope) {
    && HistoryOk(h) && NodeOk(h, n) && !n.role.Leader? && !n.role.Candidate?
    && MessageOk(h, e) && e.msg.AppendRequest? && e.dst == n.id
    && e.msg.term == n.term && LogMatches(n, e.msg)
  }

  ghost function AckedLength(msg: Message): nat
    requires msg.AppendRequest?
  {
    msg.prevLogIndex + |msg.entries| + 1
  }

  lemma AcknowledgeExtends(h: History, n: Node, e: Envelope)
    requires Taking(h, n, e)
    ensures var k := Acknowledge(h, n, AckedLength(e.msg));
            && HistoryOk(k) && Extends(h, k, n.id)
            && k.leaderLog == h.leaderLog
            && Acked(k, n.term, n.id, AckedLength(e.msg) - 1)
  {
    var k := Acknowledge(h, n, AckedLength(e.msg));
    assert Grows(h, k);
    forall p | p != n.id
      ensures SameFor(h, k, p)
    {
    }
    HistoryGrows(h, k);
  }

  /** One acknowledged prefix survives the append loop, unless this leader lacks it. */
  lemma MergeKeeps(ll: map<Term, Log>, log: Log, t: Term, prev: nat, entries: seq<Entry>, s: Term, i: nat)
    requires LeaderLogsOk(ll) && Sound(ll, log) && t in ll
    requires prev + |entries| < |ll[t]| && entries == ll[t][prev + 1..prev + 1 + |entries|]
    requires prev < |log| && log[prev].term == ll[t][prev].term
    requires s <= t && Holds(ll, log, s, i)
    ensures Holds(ll, Merge(log, prev + 1, entries), s, i) || Lost(ll, s, i, t + 1)
  {
    if s == t || Holds(ll, ll[t], s, i) {
      MergeHolds(ll, log, t, prev, entries, s, i);
    }
  }

  lemma MergeKeepsOne(h: History, log: Log, c: nat, msg: Message, s: Term, i: nat)
    requires Requested(h, log, c, msg) && s <= msg.term
    requires (s == msg.term && i < AckedLength(msg)) || Holds(h.leaderLog, log, s, i)
    ensures Holds(h.leaderLog, Merge(log, msg.prevLogIndex + 1, msg.entries), s, i)
         || Lost(h.leaderLog, s, i, msg.term + 1)
  {
    if s == msg.term && i < AckedLength(msg) {
      MergedHolds(h, log, c, msg);
      HoldsLess(h.leaderLog, Merge(log, msg.prevLogIndex + 1, msg.entries), s, msg.prevLogIndex + |msg.entries|, i);
    } else {
      MergeKeeps(h.leaderLog, log, msg.term, msg.prevLogIndex, msg.entries, s, i);
    }
  }

  lemma TakeKeepsOne(h: History, n: Node, e: Envelope, s: Term, i: nat)
    requires Taking(h, n, e) && s <= n.term
    requires (s == n.term && i < AckedLength(e.msg)) || Acked(h, s, n.id, i)
    ensures var log := Merge(n.log, e.msg.prevLogIndex + 1, e.msg.entries);
            Holds(h.leaderLog, log, s, i) || Lost(h.leaderLog, s, i, n.term + 1)
  {
    TakingFacts(h, n, e);
    if (s == n.term && i < AckedLength(e.msg)) || Holds(h.leaderLog, n.log, s, i) {
      MergeKeepsOne(h, n.log, n.commitIndex, e.msg, s, i);
    }
  }

  lemma TakeKeeps(h: History, n: Node, e: Envelope)
    requires Taking(h, n, e)
    ensures Keeps(Acknowledge(h, n, AckedLength(e.msg)), n.id, AppendEntries(n, e.msg).log, n.term + 1)
  {
    var k := Acknowledge(h, n, AckedLength(e.msg));
    var log := AppendEntries(n, e.msg).log;
    forall s: Term, i: nat | s < n.term + 1 && Acked(k, s, n.id, i)
      ensures Holds(k.leaderLog, log, s, i) || Lost(k.leaderLog, s, i, n.term + 1)
    {
      assert (s == n.term && i < AckedLength(e.msg)) || Acked(h, s, n.id, i);
      TakeKeepsOne(h, n, e, s, i);
    }
  }

  /** What a request says about the log of its leader and about a log that matches it, committed up to `c`. */
  ghost predicate Requested(h: History, log: Log, c: nat, msg: Message) {
    && msg.AppendRequest? && LeaderLogsOk(h.leaderLog) && Sound(h.leaderLog, log)
    && Carries(h.leaderLog, msg) && MatchesAt(h.leaderLog, log, msg)
    && msg.leaderCommit <= msg.prevLogIndex + |msg.entries|
    && CommitOk(h, h.leaderLog[msg.term], msg.leaderCommit, msg.term)
    && LastTerm(log) <= msg.term && CommitOk(h, log, c, msg.term)
  }

  /** The entries of a request are its leader's. */
  ghost predicate Carries(ll: map<Term, Log>, msg: Message)
    requires msg.AppendRequest?
  {
    && msg.term in ll && msg.prevLogIndex + |msg.entries| < |ll[msg.term]|
    && msg.entries == ll[msg.term][msg.prevLogIndex + 1..msg.prevLogIndex + 1 + |msg.entries|]
  }

  ghost predicate MatchesAt(ll: map<Term, Log>, log: Log, msg: Message)
    requires msg.AppendRequest? && Carries(ll, msg)
  {
    msg.prevLogIndex < |log| && log[msg.prevLogIndex].term == ll[msg.term][msg.prevLogIndex].term
  }

  lemma TakingFacts(h: History, n: Node, e: Envelope)
    requires Taking(h, n, e)
    ensures Requested(h, n.log, n.commitIndex, e.msg)
  {
  }

  /** What the leader has committed is committed in a log that holds the leader's prefix. */
  lemma HeldCommit(h: History, log: Log, t: Term, i: nat, commit: nat)
    requires Holds(h.leaderLog, log, t, i) && commit <= i && CommitOk(h, h.leaderLog[t], commit, t)
    ensures CommitOk(h, log, commit, t)
  {
    if commit > 0 {
      var s, j := CommitWitness(h, h.leaderLog[t], commit, t);
      HoldsLess(h.leaderLog, log, t, i, commit);
      HoldsTrans(h.leaderLog, log, s, t, commit);
    }
  }

  lemma MergedHolds(h: History, log: Log, c: nat, msg: Message)
    requires Requested(h, log, c, msg)
    ensures Holds(h.leaderLog, Merge(log, msg.prevLogIndex + 1, msg.entries), msg.term,
                  msg.prevLogIndex + |msg.entries|)
  {
    MergeTakes(h.leaderLog, log, msg.term, msg.prevLogIndex, msg.entries);
  }

  /** The commit index of a request is covered by the log that the loop leaves. */
  lemma MergeAnnounced(h: History, log: Log, c: nat, msg: Message, merged: Log)
    requires Requested(h, log, c, msg) && merged == Merge(log, msg.prevLogIndex + 1, msg.entries)
    ensures CommitOk(h, merged, msg.leaderCommit, msg.term)
  {
    MergedHolds(h, log, c, msg);
    HeldCommit(h, merged, msg.term, msg.prevLogIndex + |msg.entries|, msg.leaderCommit);
  }

  lemma MergeKeepsFirst(h: History, log: Log, c: nat, msg: Message, merged: Log)
    requires Requested(h, log, c, msg) && merged == Merge(log, msg.prevLogIndex + 1, msg.entries)
    ensures |merged| > 0 && merged[..1] == log[..1]
  {
    MergeSound(h.leaderLog, log, msg.term, msg.prevLogIndex, msg.entries);
    assert merged[..1] == [merged[0]] && log[..1] == [log[0]];
  }

  /** What is committed in a log is never cut by a request of a leader of its term or later. */
  lemma MergeCommitted(h: History, log: Log, c: nat, msg: Message, merged: Log)
    requires HistoryOk(h) && Requested(h, log, c, msg) && merged == Merge(log, msg.prevLogIndex + 1, msg.entries)
    ensures CommitOk(h, merged, c, msg.term) && merged[..c + 1] == log[..c + 1]
  {
    if c == 0 {
      MergeKeepsFirst(h, log, c, msg, merged);
    } else {
      var s, i := CommitWitness(h, log, c, msg.term);
      LeaderCompleteness(h, s, i, msg.term);
      MergeKeepsCommitted(h, log, c, msg, s, i);
    }
  }

  lemma MergeKeepsCommitted(h: History, log: Log, c: nat, msg: Message, s: Term, i: nat)
    requires Requested(h, log, c, msg) && c <= i && Holds(h.leaderLog, log, s, c)
    requires Holds(h.leaderLog, h.leaderLog[msg.term], s, i)
    ensures var merged := Merge(log, msg.prevLogIndex + 1, msg.entries);
            Holds(h.leaderLog, merged, s, c) && merged[..c + 1] == log[..c + 1]
  {
    HoldsLess(h.leaderLog, h.leaderLog[msg.term], s, i, c);
    MergeHolds(h.leaderLog, log, msg.term, msg.prevLogIndex, msg.entries, s, c);
  }

  lemma MergeCommits(h: History, n: Node, msg: Message)
    requires HistoryOk(h) && Requested(h, n.log, n.commitIndex, msg) && LogMatches(n, msg)
    ensures var m := AppendEntries(n, msg);
            && CommitOk(h, m.log, n.commitIndex, msg.term)
            && m.log[..n.commitIndex + 1] == n.log[..n.commitIndex + 1]
            && m.commitIndex == (if msg.leaderCommit > n.commitIndex then msg.leaderCommit else n.commitIndex)
            && CommitOk(h, m.log, m.commitIndex, msg.term)
  {
    MergeCommitted(h, n.log, n.commitIndex, msg, AppendEntries(n, msg).log);
    MergeAnnounced(h, n.log, n.commitIndex, msg, AppendEntries(n, msg).log);
  }

  /** The loop never cuts at or below the commit index, and the new commit index is the one announced. */
  lemma TakeCommit(h: History, n: Node, e: Envelope)
    requires Taking(h, n, e)
    ensures var m := AppendEntries(n, e.msg);
            && CommitOk(h, m.log, n.commitIndex, n.term)
            && m.log[..n.commitIndex + 1] == n.log[..n.commitIndex + 1]
            && m.commitIndex == (if e.msg.leaderCommit > n.commitIndex then e.msg.leaderCommit else n.commitIndex)
            && CommitOk(h, m.log, m.commitIndex, n.term)
  {
    TakingFacts(h, n, e);
    MergeCommits(h, n, e.msg);
  }

  lemma TakeLogOk(h: History, n: Node, e: Envelope)
    requires Taking(h, n, e)
    ensures LogOk(Acknowledge(h, n, AckedLength(e.msg)), AppendEntries(n, e.msg))
  {
    var k := Acknowledge(h, n, AckedLength(e.msg));
    var m := AppendEntries(n, e.msg);
    TakeKeeps(h, n, e);
    TakeCommitGrows(h, n, e);
    TakeSound(h, n, e);
    TakeApplied(n, m);
  }

  lemma TakeApplied(n: Node, m: Node)
    requires n.lastApplied <= n.commitIndex < |n.log| && n.machine == Commands(n.log[..n.lastApplied + 1])
    requires n.commitIndex < |m.log| && m.log[..n.commitIndex + 1] == n.log[..n.commitIndex + 1]
    requires m.lastApplied == n.lastApplied && m.machine == n.machine
    ensures m.machine == Commands(m.log[..m.lastApplied + 1])
  {
    TakeMachine(m.log, n.log, n.commitIndex, n.lastApplied);
  }

  lemma TakeCommitGrows(h: History, n: Node, e: Envelope)
    requires Taking(h, n, e)
    ensures var k, m := Acknowledge(h, n, AckedLength(e.msg)), AppendEntries(n, e.msg);
            && CommitOk(k, m.log, m.commitIndex, n.term) && n.commitIndex <= m.commitIndex
            && n.commitIndex < |m.log| && n.commitIndex < |n.log|
            && m.log[..n.commitIndex + 1] == n.log[..n.commitIndex + 1]
  {
    var k, m := Acknowledge(h, n, AckedLength(e.msg)), AppendEntries(n, e.msg);
    AcknowledgeExtends(h, n, e);
    TakeCommit(h, n, e);
    CommitOkGrows(h, k, m.log, m.commitIndex, n.term, n.term);
  }

  lemma RequestedSound(h: History, n: Node, msg: Message)
    requires Requested(h, n.log, n.commitIndex, msg) && LogMatches(n, msg)
    ensures var log := AppendEntries(n, msg).log; Sound(h.leaderLog, log) && LastTerm(log) <= msg.term
  {
    MergeSound(h.leaderLog, n.log, msg.term, msg.prevLogIndex, msg.entries);
  }

  lemma TakeSound(h: History, n: Node, e: Envelope)
    requires Taking(h, n, e)
    ensures var log := AppendEntries(n, e.msg).log; Sound(h.leaderLog, log) && LastTerm(log) <= n.term
  {
    TakingFacts(h, n, e);
    RequestedSound(h, n, e.msg);
  }

  lemma TakeMachine(a: Log, b: Log, commit: nat, applied: nat)
    requires applied <= commit < |a| && commit < |b| && a[..commit + 1] == b[..commit + 1]
    ensures Commands(a[..applied + 1]) == Commands(b[..applied + 1])
  {
    assert a[..applied + 1] == a[..commit + 1][..applied + 1];
    assert b[..applied + 1] == b[..commit + 1][..applied + 1];
  }

  /** The response tells the leader the truth. */
  lemma TakeOk(h: History, n: Node, e: Envelope)
    requires Taking(h, n, e)
    ensures var k := Acknowledge(h, n, AckedLength(e.msg));
            && HistoryOk(k) && NodeOk(k, AppendEntries(n, e.msg)) && Extends(h, k, n.id)
            && MessageOk(k, Envelope(n.id, e.src, AppendResponse(n.term, AckedLength(e.msg) - 1, true)))
  {
    AcknowledgeExtends(h, n, e);
    TakeLogOk(h, n, e);
  }
}
