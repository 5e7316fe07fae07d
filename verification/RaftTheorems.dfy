/** The guarantees of the Raft cluster, over every run. */
module RaftTheorems {
  import opened Collections
  import opened RaftTypes
  import opened RaftHandlers
  import opened RaftHistory
  import opened RaftSafety
  import opened RaftElection
  import opened RaftReplication
  import opened RaftCluster

  // ----- State machine safety -----

  ghost predicate PrefixComparable<T>(a: seq<T>, b: seq<T>) {
    a <= b || b <= a
  }

  /** The part of a node's order that outlives the node's further steps. */
  ghost predicate Settled(h: History, n: Node) {
    && Sound(h.leaderLog, n.log)
    && n.lastApplied <= n.commitIndex && CommitOk(h, n.log, n.commitIndex, n.term)
    && n.machine == Commands(n.log[..n.lastApplied + 1])
  }

  lemma LaterSettled(states: seq<Cluster>, events: seq<Event>, i: nat, j: nat, p: NodeId)
    requires IsRun(states, events) && i <= j < |states| && p in states[i].nodes
    ensures HistoryOk(states[j].h) && Settled(states[j].h, states[i].nodes[p])
  {
    var n := states[i].nodes[p];
    RunOk(states, events, i);
    RunOk(states, events, j);
    RunGrows(states, events, i, j);
    assert MemberOk(states[i], p);
    SoundGrows(states[i].h.leaderLog, states[j].h.leaderLog, n.log);
    CommitOkGrows(states[i].h, states[j].h, n.log, n.commitIndex, n.term, n.term);
  }

  lemma CommitOkLess(h: History, log: Log, k: nat, j: nat, term: Term)
    requires CommitOk(h, log, k, term) && j <= k
    ensures CommitOk(h, log, j, term)
  {
    if j > 0 {
      var t, i := CommitWitness(h, log, k, term);
      HoldsLess(h.leaderLog, log, t, k, j);
    }
  }

  lemma {:induction false} CommandsMonotone(a: Log, b: Log)
    requires a <= b
    ensures Commands(a) <= Commands(b)
    decreases |b|
  {
    if |a| < |b| {
      assert a <= b[..|b| - 1];
      CommandsMonotone(a, b[..|b| - 1]);
    } else {
      assert a == b;
    }
  }

  lemma SettledAgree(h: History, a: Node, b: Node, j: nat)
    requires HistoryOk(h) && Settled(h, a) && Settled(h, b)
    requires j <= a.commitIndex && j <= b.commitIndex
    ensures a.log[..j + 1] == b.log[..j + 1]
  {
    CommitOkLess(h, a.log, a.commitIndex, j, a.term);
    CommitOkLess(h, b.log, b.commitIndex, j, b.term);
    SoundIsSorted(h.leaderLog, a.log);
    SoundIsSorted(h.leaderLog, b.log);
    CommittedPrefixesAgree(h, a.log, j, a.term, b.log, j, b.term);
  }

  lemma AppliedAgree(h: History, a: Node, b: Node)
    requires HistoryOk(h) && Settled(h, a) && Settled(h, b) && a.lastApplied <= b.lastApplied
    ensures a.log[..a.lastApplied + 1] <= b.log[..b.lastApplied + 1] && a.machine <= b.machine
  {
    SettledAgree(h, a, b, a.lastApplied);
    CommandsMonotone(a.log[..a.lastApplied + 1], b.log[..b.lastApplied + 1]);
  }

  /** State machine safety: what any two nodes have applied, at any two moments of a run with crashes
      and restarts, are prefixes of one another; so are the commands their machines have seen. */
  lemma StateMachineSafety(states: seq<Cluster>, events: seq<Event>, i: nat, j: nat, p: NodeId, q: NodeId)
    requires IsRun(states, events) && i < |states| && j < |states|
    requires p in states[i].nodes && q in states[j].nodes
    ensures var a, b := states[i].nodes[p], states[j].nodes[q];
            && a.lastApplied < |a.log| && b.lastApplied < |b.log|
            && PrefixComparable(a.log[..a.lastApplied + 1], b.log[..b.lastApplied + 1])
            && PrefixComparable(a.machine, b.machine)
  {
    var last := |states| - 1;
    var a, b := states[i].nodes[p], states[j].nodes[q];
    LaterSettled(states, events, i, last, p);
    LaterSettled(states, events, j, last, q);
    if a.lastApplied <= b.lastApplied {
      AppliedAgree(states[last].h, a, b);
    } else {
      AppliedAgree(states[last].h, b, a);
    }
  }

  /** Committed entries are never contradicted: any two nodes agree on every index both know committed. */
  lemma CommitSafety(states: seq<Cluster>, events: seq<Event>, i: nat, j: nat, p: NodeId, q: NodeId, k: nat)
    requires IsRun(states, events) && i < |states| && j < |states|
    requires p in states[i].nodes && q in states[j].nodes
    requires k <= states[i].nodes[p].commitIndex && k <= states[j].nodes[q].commitIndex
    ensures var a, b := states[i].nodes[p], states[j].nodes[q];
            k < |a.log| && k < |b.log| && a.log[k] == b.log[k]
  {
    var last := |states| - 1;
    var a, b := states[i].nodes[p], states[j].nodes[q];
    LaterSettled(states, events, i, last, p);
    LaterSettled(states, events, j, last, q);
    SettledAgree(states[last].h, a, b, k);
    assert a.log[..k + 1][k] == b.log[..k + 1][k];
  }

  // ----- Elections -----

  /** Election safety: no term ever has two leaders. */
  lemma ElectionSafety(states: seq<Cluster>, events: seq<Event>, i: nat, j: nat, p: NodeId, q: NodeId)
    requires IsRun(states, events) && i <= j < |states|
    requires p in states[i].nodes && states[i].nodes[p].role.Leader?
    requires q in states[j].nodes && states[j].nodes[q].role.Leader?
    requires states[i].nodes[p].term == states[j].nodes[q].term
    ensures p == q
  {
    RunOk(states, events, i);
    RunOk(states, events, j);
    RunGrows(states, events, i, j);
    assert MemberOk(states[i], p);
    assert MemberOk(states[j], q);
  }

  /** The bare vote counter never exceeds the number of distinct nodes that persisted a vote for the
      candidate in its term. */
  lemma CounterCountsVoters(c: Cluster, id: NodeId)
    requires ClusterOk(c) && id in c.nodes && c.nodes[id].role.Candidate?
    ensures var n := c.nodes[id];
            && n.role.votesReceived <= |Voters(c.h, n.term, id)|
            && (forall v :: v in Voters(c.h, n.term, id) ==>
                  v in c.nodes && c.nodes[v].term >= n.term
                  && (c.nodes[v].term == n.term ==> c.nodes[v].votedFor == Some(id)))
  {
    var n := c.nodes[id];
    assert MemberOk(c, id);
    var heard := Heard(c.h, id, n.term);
    var voters := Voters(c.h, n.term, id);
    forall v | v in heard
      ensures v in voters
    {
      assert MessageOk(c.h, Envelope(v, id, VoteResponse(n.term, true)));
    }
    SubsetCardinality(heard + {id}, voters);
    forall v | v in voters
      ensures v in c.nodes && c.nodes[v].term >= n.term
      ensures c.nodes[v].term == n.term ==> c.nodes[v].votedFor == Some(id)
    {
      assert MemberOk(c, v);
    }
  }

  // ----- Logs -----

  /** Log matching, across nodes and across time. */
  lemma LogsMatch(states: seq<Cluster>, events: seq<Event>, i: nat, j: nat, p: NodeId, q: NodeId, k: nat)
    requires IsRun(states, events) && i < |states| && j < |states|
    requires p in states[i].nodes && q in states[j].nodes
    requires k < |states[i].nodes[p].log| && k < |states[j].nodes[q].log|
    requires states[i].nodes[p].log[k].term == states[j].nodes[q].log[k].term
    ensures states[i].nodes[p].log[..k + 1] == states[j].nodes[q].log[..k + 1]
  {
    var last := |states| - 1;
    LaterSettled(states, events, i, last, p);
    LaterSettled(states, events, j, last, q);
    LogMatching(states[last].h.leaderLog, states[i].nodes[p].log, states[j].nodes[q].log, k);
  }

  /** Log matching against requests in flight: where a log agrees with a request on the term before the
      entries, or on the term of one of them, it agrees with the request on everything up to there. */
  lemma RequestMatches(c: Cluster, e: Envelope, p: NodeId, x: nat)
    requires ClusterOk(c) && e in c.h.sent && e.msg.AppendRequest? && p in c.nodes
    requires x < |e.msg.entries| && e.msg.prevLogIndex + 1 + x < |c.nodes[p].log|
    requires c.nodes[p].log[e.msg.prevLogIndex + 1 + x].term == e.msg.entries[x].term
    ensures c.nodes[p].log[e.msg.prevLogIndex].term == e.msg.prevLogTerm
    ensures c.nodes[p].log[e.msg.prevLogIndex + 1..e.msg.prevLogIndex + 2 + x] == e.msg.entries[..x + 1]
  {
    var ll := c.h.leaderLog;
    var log := c.nodes[p].log;
    var prev := e.msg.prevLogIndex;
    assert MessageOk(c.h, e);
    assert MemberOk(c, p);
    var leader := ll[e.msg.term];
    assert LeaderLogOk(ll, e.msg.term);
    LogMatching(ll, log, leader, prev + 1 + x);
    assert log[prev] == log[..prev + 2 + x][prev] == leader[..prev + 2 + x][prev];
    assert log[prev + 1..prev + 2 + x] == log[..prev + 2 + x][prev + 1..];
    assert e.msg.entries[..x + 1] == leader[..prev + 2 + x][prev + 1..];
  }

  /** Leader completeness: whatever any node knows committed is in the log of every leader of its term
      or a later one, from then on. */
  lemma LeadersAreComplete(states: seq<Cluster>, events: seq<Event>, i: nat, j: nat, p: NodeId, q: NodeId)
    requires IsRun(states, events) && i <= j < |states|
    requires p in states[i].nodes && q in states[j].nodes && states[j].nodes[q].role.Leader?
    requires states[j].nodes[q].term >= states[i].nodes[p].term
    ensures var n := states[i].nodes[p];
            n.commitIndex < |n.log| && n.log[..n.commitIndex + 1] <= states[j].nodes[q].log
  {
    var n, lead := states[i].nodes[p], states[j].nodes[q];
    var h := states[j].h;
    LaterSettled(states, events, i, j, p);
    RunOk(states, events, j);
    assert MemberOk(states[j], q);
    SoundIsSorted(h.leaderLog, n.log);
    SoundIsSorted(h.leaderLog, lead.log);
    if n.commitIndex > 0 {
      var t, m := CommitWitness(h, n.log, n.commitIndex, n.term);
      LeaderCompleteness(h, t, m, lead.term);
      HoldsLess(h.leaderLog, lead.log, t, m, n.commitIndex);
      assert lead.log[..n.commitIndex + 1] == n.log[..n.commitIndex + 1];
    }
  }

  // ----- Commit clamp -----

  /** The commit index announced in a request never lies beyond the request's last entry, so the clamp
      to the follower's log length never bites: a matching follower commits exactly what was announced,
      and holds the leader's entries up to it. */
  lemma CommitClamp(c: Cluster, e: Envelope)
    requires ClusterOk(c) && e in c.h.sent && e.msg.AppendRequest? && e.dst in c.nodes
    requires e.msg.term >= c.nodes[e.dst].term && LogMatches(c.nodes[e.dst], e.msg)
    ensures e.msg.leaderCommit <= e.msg.prevLogIndex + |e.msg.entries|
    ensures var n := c.nodes[e.dst];
            var t := e.msg.term;
            && NoPanic(n, Deliver(e))
            && var m := Handle(n, Deliver(e)).node;
            && m.commitIndex == Max(n.commitIndex, e.msg.leaderCommit)
            && t in c.h.leaderLog && e.msg.leaderCommit < |c.h.leaderLog[t]|
            && c.h.leaderLog[t][..e.msg.leaderCommit + 1] <= m.log
  {
    assert MemberOk(c, e.dst);
    assert MessageOk(c.h, e);
    DeliverOk(c.h, c.nodes[e.dst], e);
    TakeClamp(c.h, c.nodes[e.dst], e);
  }

  /** The commit index after a request is exactly the leader's, and what it covers is the leader's log. */
  ghost predicate Clamped(h: History, n: Node, msg: Message, m: Node)
    requires msg.AppendRequest? && msg.term in h.leaderLog && msg.leaderCommit < |h.leaderLog[msg.term]|
             && n.commitIndex < |n.log|
  {
    && m.commitIndex == Max(n.commitIndex, msg.leaderCommit)
    && m.lastApplied == Max(n.lastApplied, m.commitIndex)
    && n.commitIndex < |m.log| && m.log[..n.commitIndex + 1] == n.log[..n.commitIndex + 1]
    && h.leaderLog[msg.term][..msg.leaderCommit + 1] <= m.log
  }

  lemma TakeClamp(h: History, n: Node, e: Envelope)
    requires Receiving(h, n, e) && CanReceive(n, e.msg) && e.msg.AppendRequest?
    requires MessageOk(h, e) && e.msg.term >= n.term && LogMatches(n, e.msg)
    ensures Clamped(h, n, e.msg, Receive(n, e.src, e.msg).node)
  {
    AcceptLeaderOk(h, n, e);
    ClampAfter(h, AcceptLeader(n, e.msg), e);
    TakeOutcome(h, n, e);
    ClampFrom(h, n, AcceptLeader(n, e.msg), e.msg, Receive(n, e.src, e.msg).node);
  }

  lemma ClampFrom(h: History, n: Node, p: Node, msg: Message, m: Node)
    requires msg.AppendRequest? && msg.term in h.leaderLog && msg.leaderCommit < |h.leaderLog[msg.term]|
             && n.commitIndex < |n.log|
    requires n.log == p.log && n.commitIndex == p.commitIndex && n.lastApplied == p.lastApplied && Clamped(h, p, msg, m)
    ensures Clamped(h, n, msg, m)
  {
  }

  lemma ClampAfter(h: History, n: Node, e: Envelope)
    requires Taking(h, n, e)
    ensures var a := AppendEntries(n, e.msg);
            a.commitIndex < |a.log| && Clamped(h, n, e.msg, ApplyCommitted(a))
  {
    TakeCommit(h, n, e);
    ApplyKeeps(AppendEntries(n, e.msg));
    ClampLog(h, n, e);
  }

  lemma ClampLog(h: History, n: Node, e: Envelope)
    requires Taking(h, n, e)
    ensures var AppendRequest(t, _, _, _, _, commit) := e.msg;
            && t in h.leaderLog && commit < |h.leaderLog[t]| && n.commitIndex < |n.log|
            && h.leaderLog[t][..commit + 1] <= AppendEntries(n, e.msg).log
  {
    TakingFacts(h, n, e);
    TakePrefixOfLeader(h, n.log, n.commitIndex, e.msg);
  }

  lemma PrefixOf(log: Log, i: nat)
    requires i <= |log|
    ensures log[..i] <= log
  {
  }

  lemma HeldPrefix(ll: map<Term, Log>, log: Log, t: Term, i: nat, c: nat)
    requires Holds(ll, log, t, i) && c <= i
    ensures ll[t][..c + 1] <= log
  {
    HoldsLess(ll, log, t, i, c);
    PrefixOf(log, c + 1);
  }

  lemma TakePrefixOfLeader(h: History, log: Log, c: nat, msg: Message)
    requires Requested(h, log, c, msg)
    ensures h.leaderLog[msg.term][..msg.leaderCommit + 1] <= Merge(log, msg.prevLogIndex + 1, msg.entries)
  {
    MergedHolds(h, log, c, msg);
    HeldPrefix(h.leaderLog, Merge(log, msg.prevLogIndex + 1, msg.entries), msg.term, msg.prevLogIndex + |msg.entries|,
               msg.leaderCommit);
  }

  // ----- Acknowledgements -----

  /** A leader's match index is true of the follower as long as the follower stays in the term, however
      the responses were reordered; once the follower has left the term, its leader is behind it. */
  lemma MatchIndexIsTrue(c: Cluster, l: NodeId, p: NodeId)
    requires ClusterOk(c) && l in c.nodes && c.nodes[l].role.Leader?
    requires p in c.nodes[l].role.matchIndex && c.nodes[l].role.matchIndex[p] > 0
    ensures p in c.nodes && c.nodes[p].term >= c.nodes[l].term
    ensures var m := c.nodes[l].role.matchIndex[p];
            m < |c.nodes[l].log|
            && (c.nodes[p].term == c.nodes[l].term ==> c.nodes[l].log[..m + 1] <= c.nodes[p].log)
  {
    var lead := c.nodes[l];
    var m := lead.role.matchIndex[p];
    assert MemberOk(c, l);
    assert MemberOk(c, p);
    var n := c.nodes[p];
    assert Acked(c.h, lead.term, p, m);
    if n.term == lead.term {
      assert !Lost(c.h.leaderLog, lead.term, m, n.term + 1);
      assert Holds(c.h.leaderLog, n.log, lead.term, m);
      assert n.log[..m + 1] <= n.log;
    }
  }

  // ----- Index safety -----

  /** The indices of a node in any state of a run. */
  lemma IndicesInOrder(c: Cluster, id: NodeId)
    requires ClusterOk(c) && id in c.nodes
    ensures var n := c.nodes[id];
            && |n.log| > 0 && n.log[0] == GENESIS
            && n.lastApplied <= n.commitIndex < |n.log|
            && (n.role.Leader? ==>
                  forall p :: p in n.peers ==> p in n.role.nextIndex && 1 <= n.role.nextIndex[p] <= |n.log|)
  {
    assert MemberOk(c, id);
    SoundIsSorted(c.h.leaderLog, c.nodes[id].log);
    LeaderIndices(c.h, c.nodes[id]);
  }

  ghost predicate IsCrash(ev: Event) {
    ev.Crash? || ev.CrashAfterStepDown?
  }

  /** Between restarts the committed part of a log never changes, the indices never go back, and the
      machine sees exactly the commands of the newly applied entries, each once and in order. */
  ghost predicate MovesForward(n: Node, m: Node) {
    && n.commitIndex <= m.commitIndex < |m.log| && n.commitIndex < |n.log|
    && m.log[..n.commitIndex + 1] == n.log[..n.commitIndex + 1]
    && n.lastApplied <= m.lastApplied < |m.log|
    && m.machine == n.machine + Commands(m.log[n.lastApplied + 1..m.lastApplied + 1])
  }

  lemma {:induction false} CommandsSplit(log: Log, i: nat, j: nat)
    requires i <= j <= |log|
    ensures Commands(log[..j]) == Commands(log[..i]) + Commands(log[i..j])
    decreases j
  {
    if i < j {
      CommandsSplit(log, i, j - 1);
      assert log[..j][..j - 1] == log[..j - 1];
      assert log[i..j][..j - i - 1] == log[i..j - 1];
    }
  }

  lemma ForwardFromLogs(h: History, k: History, n: Node, m: Node)
    requires LogOk(h, n) && LogOk(k, m)
    requires n.commitIndex <= m.commitIndex && n.lastApplied <= m.lastApplied
    requires m.log[..n.commitIndex + 1] == n.log[..n.commitIndex + 1]
    ensures MovesForward(n, m)
  {
    TakeMachine(m.log, n.log, n.commitIndex, n.lastApplied);
    CommandsSplit(m.log, n.lastApplied + 1, m.lastApplied + 1);
  }

  /** The indices do not go back, and the committed part of the log stays. */
  ghost predicate Forward(n: Node, m: Node)
    requires n.commitIndex < |n.log|
  {
    && n.commitIndex <= m.commitIndex && n.lastApplied <= m.lastApplied
    && n.commitIndex < |m.log| && m.log[..n.commitIndex + 1] == n.log[..n.commitIndex + 1]
  }

  lemma SettleForward(n: Node, p: Node)
    requires n.commitIndex < |n.log| && p.commitIndex < |p.log| && Forward(n, p)
    ensures Forward(n, SettleCommits(p).node)
  {
    ApplyKeeps(AdvanceCommit(p));
  }

  lemma LeadForward(n: Node)
    requires n.commitIndex < |n.log|
    ensures Forward(n, BecomeLeader(n).node)
  {
    SettleForward(n, TakeLead(n));
  }

  /** What every handler does to the indices and to the committed part of the log. */
  lemma HandlerForward(h: History, n: Node, ev: Event)
    requires HistoryOk(h) && NodeOk(h, n) && Actor(ev) == n.id && Enabled(h, n, ev) && !IsCrash(ev)
    requires NoPanic(n, ev)
    ensures n.commitIndex < |n.log| && Forward(n, Handle(n, ev).node)
  {
    match ev
    case Timeout(_) =>
      LeadForward(StartCandidacy(n));
    case Heartbeat(_) =>
    case Client(_, command, ticket) =>
      if n.role.Leader? {
        SettleForward(n, ClientAppend(n, command, ticket));
      }
    case Deliver(e) => ReceiveForward(h, n, e);
  }

  lemma ReceiveForward(h: History, n: Node, e: Envelope)
    requires Receiving(h, n, e) && CanReceive(n, e.msg)
    ensures Forward(n, Receive(n, e.src, e.msg).node)
  {
    if e.msg.AppendRequest? {
      AppendRequestForward(h, n, e);
    } else {
      ReplyForward(n, e.src, e.msg);
    }
  }

  lemma ReplyForward(n: Node, src: NodeId, msg: Message)
    requires n.commitIndex < |n.log| && !msg.AppendRequest?
    ensures Forward(n, Receive(n, src, msg).node)
  {
    if msg.AppendResponse? && msg.term == n.term && n.role.Leader? {
      SettleForward(n, RecordResponse(n, src, msg));
    } else if msg == VoteResponse(n.term, true) && n.role.Candidate? {
      LeadForward(CountVote(n));
    }
  }

  lemma AppendRequestForward(h: History, n: Node, e: Envelope)
    requires Receiving(h, n, e) && CanReceive(n, e.msg) && e.msg.AppendRequest?
    ensures Forward(n, Receive(n, e.src, e.msg).node)
  {
    if e.msg.term >= n.term && LogMatches(n, e.msg) {
      assert MessageOk(h, e);
      TakeClamp(h, n, e);
    } else if e.msg.term >= n.term {
      MismatchOutcome(h, n, e);
    }
  }

  lemma ActorForward(h: History, k: History, n: Node, ev: Event)
    requires HistoryOk(h) && NodeOk(h, n) && Actor(ev) == n.id && Enabled(h, n, ev) && !IsCrash(ev)
    requires NoPanic(n, ev) && NodeOk(k, Handle(n, ev).node)
    ensures MovesForward(n, Handle(n, ev).node)
  {
    HandlerForward(h, n, ev);
    ForwardFromLogs(h, k, n, Handle(n, ev).node);
  }

  /** Index safety: a step that is not a crash moves its node forward and leaves the others as they are. */
  lemma StepsMoveForward(c: Cluster, ev: Event, d: Cluster, id: NodeId)
    requires ClusterOk(c) && Next(c, ev, d) && id in c.nodes && !(IsCrash(ev) && Actor(ev) == id)
    ensures id in d.nodes && MovesForward(c.nodes[id], d.nodes[id])
  {
    NextPreserves(c, ev, d);
    assert MemberOk(c, id);
    assert MemberOk(d, id);
    if Actor(ev) == id {
      ActorForward(c.h, d.h, c.nodes[id], ev);
    } else {
      assert d.nodes[id] == c.nodes[id];
      ForwardFromLogs(c.h, d.h, c.nodes[id], c.nodes[id]);
    }
  }
}
