/** The commit rule in both directions: in every state of every run a leader's commit index is as far as the
    acknowledgements of a majority allow, and everything committed has been applied. */
module RaftCommit {
  import opened Collections
  import opened RaftTypes
  import opened RaftHandlers
  import opened RaftHistory
  import opened RaftReplication
  import opened RaftCluster

  /** `q` is a majority of the members, with the leader `n` in it, and the leader knows that all others in it
      have acknowledged its log up to index `j`. */
  ghost predicate Backed(members: set<NodeId>, n: Node, q: set<NodeId>, j: nat)
    requires n.role.Leader?
  {
    && n.id in q && q <= members && 2 * |q| > |members|
    && forall p :: p in q && p != n.id ==> p in n.role.matchIndex && n.role.matchIndex[p] >= j
  }

  /** No entry of a leader's own term beyond its commit index is backed by a majority. */
  ghost predicate Greatest(members: set<NodeId>, n: Node) {
    n.role.Leader? ==>
      forall j: nat, q: set<NodeId> {:trigger Backed(members, n, q, j)} ::
        j < |n.log| && n.log[j].term == n.term && Backed(members, n, q, j) ==> j <= n.commitIndex
  }

  ghost predicate Current(members: set<NodeId>, n: Node) {
    n.lastApplied == n.commitIndex && Greatest(members, n)
  }

  // ----- The scan -----

  /** What the scan needs to know of a node. */
  ghost predicate Counting(h: History, n: Node) {
    PeersOk(h, n) && (n.role.Leader? ==> n.role.matchIndex.Keys == h.members - {n.id})
  }

  lemma {:induction false} MembersOf(h: History, n: Node)
    requires PeersOk(h, n)
    ensures |h.members| == |n.peers| + 1
  {
    NoRepeatsCardinality(n.peers);
    assert h.members == Elems(n.peers) + {n.id};
  }

  lemma {:induction false} BackedCommittable(h: History, n: Node, q: set<NodeId>, j: nat)
    requires Counting(h, n) && n.role.Leader? && j < |n.log| && n.log[j].term == n.term
    requires Backed(h.members, n, q, j)
    ensures Committable(n, j)
  {
    MembersOf(h, n);
    var others := q - {n.id};
    assert q == others + {n.id};
    assert others <= Replicas(n.role.matchIndex, j);
    SubsetCardinality(others, Replicas(n.role.matchIndex, j));
  }

  lemma {:induction false} CommittableBacked(h: History, n: Node, j: nat)
    requires Counting(h, n) && n.role.Leader? && j < |n.log| && Committable(n, j)
    ensures n.log[j].term == n.term && Backed(h.members, n, Replicas(n.role.matchIndex, j) + {n.id}, j)
  {
    MembersOf(h, n);
    assert n.id !in Replicas(n.role.matchIndex, j);
  }

  /** Every settlement of commits is exact. */
  lemma {:induction false} SettleExact(h: History, n: Node)
    requires Counting(h, n) && n.lastApplied <= n.commitIndex < |n.log|
    ensures var m := SettleCommits(n).node;
            && Current(h.members, m) && m.role == n.role && m.log == n.log && m.term == n.term && m.id == n.id
            && n.commitIndex <= m.commitIndex < |m.log| && CommitMoved(h.members, n.commitIndex, m)
  {
    var a, m := AdvanceCommit(n), SettleCommits(n).node;
    ApplyKeeps(a);
    if n.role.Leader? {
      forall j: nat, q: set<NodeId> | j < |m.log| && m.log[j].term == m.term && Backed(h.members, m, q, j)
        ensures j <= m.commitIndex
      {
        assert Backed(h.members, n, q, j);
        BackedCommittable(h, n, q, j);
      }
      if a.commitIndex != n.commitIndex {
        CommittableBacked(h, n, a.commitIndex);
        assert Backed(h.members, m, Replicas(n.role.matchIndex, a.commitIndex) + {n.id}, a.commitIndex);
      }
    }
  }

  /** The commit index of a leader was `old`, or an entry of the leader's term is there that a majority backs. */
  ghost predicate CommitMoved(members: set<NodeId>, old_: nat, m: Node) {
    m.role.Leader? && m.commitIndex != old_ ==>
      && old_ < m.commitIndex < |m.log| && m.log[m.commitIndex].term == m.term
      && exists q :: Backed(members, m, q, m.commitIndex)
  }

  // ----- Every handler -----

  /** What a handler makes of a node whose commit index is exact. */
  ghost predicate StaysExact(members: set<NodeId>, n: Node, m: Node) {
    Current(members, m) && CommitMoved(members, n.commitIndex, m)
  }

  lemma {:induction false} LeadExact(h: History, n: Node)
    requires PeersOk(h, n) && n.lastApplied <= n.commitIndex < |n.log|
    ensures StaysExact(h.members, n, BecomeLeader(n).node)
  {
    var lead := TakeLead(n);
    assert forall p :: p in n.peers <==> p in Elems(n.peers);
    SettleExact(h, lead);
  }

  lemma {:induction false} TimeoutExact(h: History, n: Node)
    requires PeersOk(h, n) && n.commitIndex < |n.log| && Current(h.members, n)
    ensures StaysExact(h.members, n, BecomeCandidate(n).node)
  {
    LeadExact(h, StartCandidacy(n));
  }

  lemma {:induction false} ClientExact(h: History, n: Node, command: Command, ticket: Ticket)
    requires Counting(h, n) && Ready(n) && Current(h.members, n)
    ensures StaysExact(h.members, n, ClientApply(n, command, ticket).node)
  {
    SettleExact(h, ClientAppend(n, command, ticket));
  }

  lemma {:induction false} VoteResponseExact(h: History, n: Node, msg: Message)
    requires PeersOk(h, n) && n.commitIndex < |n.log| && Current(h.members, n) && msg.VoteResponse?
    ensures StaysExact(h.members, n, OnVoteResponse(n, msg).node)
  {
    if n.role.Candidate? {
      LeadExact(h, CountVote(n));
    }
  }

  lemma {:induction false} AppendResponseExact(h: History, n: Node, e: Envelope)
    requires Receiving(h, n, e) && Current(h.members, n) && e.msg.AppendResponse?
    ensures n.commitIndex < |n.log| && StaysExact(h.members, n, OnAppendResponse(n, e.src, e.msg).node)
  {
    if e.msg.term == n.term && n.role.Leader? {
      assert MessageOk(h, e);
      RecordRoleOk(h, n, e);
      SettleExact(h, RecordResponse(n, e.src, e.msg));
    }
  }

  lemma {:induction false} AppendRequestExact(h: History, n: Node, e: Envelope)
    requires Receiving(h, n, e) && Current(h.members, n) && e.msg.AppendRequest? && CanReceive(n, e.msg)
    ensures StaysExact(h.members, n, OnAppendRequest(n, e.src, e.msg).node)
  {
    if e.msg.term >= n.term {
      assert MessageOk(h, e);
      AcceptLeaderOk(h, n, e);
      if LogMatches(n, e.msg) {
        TakenExact(h.members, n, AcceptLeader(n, e.msg), e);
      } else {
        MismatchExact(h.members, n, AcceptLeader(n, e.msg), e);
      }
    }
  }

  lemma {:induction false} MismatchExact(members: set<NodeId>, n: Node, m: Node, e: Envelope)
    requires e.msg.AppendRequest? && CanReceive(n, e.msg) && e.msg.term >= n.term && !LogMatches(n, e.msg)
    requires |n.log| > 0 && m == AcceptLeader(n, e.msg) && m.role.Follower? && n.lastApplied == n.commitIndex
    ensures StaysExact(members, n, OnAppendRequest(n, e.src, e.msg).node)
  {
  }

  lemma {:induction false} TakenExact(members: set<NodeId>, n: Node, m: Node, e: Envelope)
    requires e.msg.AppendRequest? && CanReceive(n, e.msg) && e.msg.term >= n.term && LogMatches(n, e.msg)
    requires m == AcceptLeader(n, e.msg) && m.role.Follower? && n.lastApplied == n.commitIndex
    ensures StaysExact(members, n, OnAppendRequest(n, e.src, e.msg).node)
  {
    ApplyKeeps(AppendEntries(m, e.msg));
  }

  lemma {:induction false} VoteRequestExact(h: History, n: Node, e: Envelope)
    requires Receiving(h, n, e) && Current(h.members, n) && e.msg.VoteRequest? && |n.log| > 0
    ensures StaysExact(h.members, n, OnVoteRequest(n, e.src, e.msg).node)
  {
    if n.role.Leader? && e.msg.term <= n.term {
      SameBacking(h.members, n, OnVoteRequest(n, e.src, e.msg).node);
    }
  }

  lemma {:induction false} SameBacking(members: set<NodeId>, n: Node, m: Node)
    requires n.role.Leader? && Greatest(members, n)
    requires m.role == n.role && m.log == n.log && m.term == n.term && m.id == n.id && m.commitIndex == n.commitIndex
    ensures Greatest(members, m)
  {
    forall j: nat, q: set<NodeId> | j < |m.log| && m.log[j].term == m.term && Backed(members, m, q, j)
      ensures j <= m.commitIndex
    {
      assert Backed(members, n, q, j);
    }
  }

  lemma {:induction false} ReceiveExact(h: History, n: Node, e: Envelope)
    requires Receiving(h, n, e) && Current(h.members, n) && CanReceive(n, e.msg)
    ensures StaysExact(h.members, n, Receive(n, e.src, e.msg).node)
  {
    match e.msg
    case AppendRequest(_, _, _, _, _, _) => AppendRequestExact(h, n, e);
    case AppendResponse(_, _, _) => AppendResponseExact(h, n, e);
    case VoteRequest(_, _, _, _) => VoteRequestExact(h, n, e);
    case VoteResponse(_, _) => VoteResponseExact(h, n, e.msg);
  }

  lemma {:induction false} HandlerExact(h: History, n: Node, ev: Event)
    requires HistoryOk(h) && NodeOk(h, n) && Actor(ev) == n.id && Enabled(h, n, ev) && NoPanic(n, ev)
    requires Current(h.members, n)
    ensures StaysExact(h.members, n, Handle(n, ev).node)
  {
    match ev
    case Timeout(_) => TimeoutExact(h, n);
    case Heartbeat(_) =>
    case Client(_, command, ticket) => ClientExact(h, n, command, ticket);
    case Deliver(e) => ReceiveExact(h, n, e);
    case Crash(_) =>
    case CrashAfterStepDown(_) =>
  }

  // ----- Runs -----

  ghost predicate AllCurrent(c: Cluster) {
    forall id {:trigger Current(c.h.members, c.nodes[id])} :: id in c.nodes ==> Current(c.h.members, c.nodes[id])
  }

  /** The commit rule, exactly. After any step of a leader its commit index is the greatest index at which an entry
      of its term is backed by a majority, unless it was beyond that already. */
  lemma {:induction false} CommitStepExact(c: Cluster, ev: Event, d: Cluster)
    requires ClusterOk(c) && AllCurrent(c) && Next(c, ev, d)
    ensures AllCurrent(d)
    ensures var l := Actor(ev);
            && l in c.nodes && l in d.nodes
            && Greatest(d.h.members, d.nodes[l]) && CommitMoved(d.h.members, c.nodes[l].commitIndex, d.nodes[l])
  {
    var l := Actor(ev);
    assert MemberOk(c, l);
    HandlerExact(c.h, c.nodes[l], ev);
    NextPreserves(c, ev, d);
    forall id | id in d.nodes
      ensures Current(d.h.members, d.nodes[id])
    {
      if id != l {
        assert Current(c.h.members, c.nodes[id]);
      }
    }
  }

  lemma {:induction false} InitCurrent(c: Cluster)
    requires Init(c)
    ensures AllCurrent(c)
  {
    forall id | id in c.nodes
      ensures Current(c.h.members, c.nodes[id])
    {
      NewNodePeers(c.h.members, c.nodes[id]);
    }
  }

  lemma {:induction false} RunCurrent(states: seq<Cluster>, events: seq<Event>, i: nat)
    requires IsRun(states, events) && i < |states|
    ensures AllCurrent(states[i])
  {
    if i == 0 {
      InitCurrent(states[0]);
    } else {
      RunCurrent(states, events, i - 1);
      CurrentAt(states, events, i - 1);
    }
  }

  lemma {:induction false} CurrentAt(states: seq<Cluster>, events: seq<Event>, i: nat)
    requires IsRun(states, events) && i < |events| && AllCurrent(states[i])
    ensures AllCurrent(states[i + 1])
  {
    RunOk(states, events, i);
    RunStep(states, events, i);
    CommitStepExact(states[i], events[i], states[i + 1]);
  }

  /** In every state of every run each node has applied everything it knows committed, and whatever entry of a
      leader's own term a majority has acknowledged to it is committed. */
  lemma {:induction false} CommitIsGreatest(states: seq<Cluster>, events: seq<Event>, i: nat, l: NodeId)
    requires IsRun(states, events) && i < |states| && l in states[i].nodes
    ensures var n := states[i].nodes[l];
            && n.lastApplied == n.commitIndex
            && (n.role.Leader? ==>
                  forall j: nat, q: set<NodeId> {:trigger Backed(states[i].h.members, n, q, j)} ::
                    j < |n.log| && n.log[j].term == n.term && Backed(states[i].h.members, n, q, j) ==>
                      j <= n.commitIndex)
  {
    RunCurrent(states, events, i);
    assert Current(states[i].h.members, states[i].nodes[l]);
  }
}
