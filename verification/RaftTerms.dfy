/** Terms spread with every message, stale senders are told, and followers know who leads. */
module RaftTerms {
  import opened Collections
  import opened RaftTypes
  import opened RaftHandlers
  import opened RaftHistory
  import opened RaftCluster
  import opened RaftLiveness

  // ----- One message -----

  /** A request of an older term changes nothing; its sender is told the newer term, and is refused. */
  lemma {:induction false} StaleRequestIsAnswered(n: Node, src: NodeId, msg: Message)
    requires (msg.AppendRequest? || msg.VoteRequest?) && msg.term < n.term && src in n.peers
    requires n.commitIndex < |n.log|
    ensures CanReceive(n, msg)
    ensures var out := Receive(n, src, msg);
            && out.node == n && out.answers == []
            && out.sends == [Envelope(n.id, src, if msg.AppendRequest? then AppendResponse(n.term, 0, false)
                                                 else VoteResponse(n.term, false))]
  {
  }

  /** A vote is granted exactly when the node has voted for nobody else in the term of the request, and its log
      is not ahead of the candidate's. */
  lemma {:induction false} GrantedIff(n: Node, src: NodeId, msg: Message)
    requires msg.VoteRequest? && msg.term >= n.term && src in n.peers && |n.log| > 0
    ensures var out, t := OnVoteRequest(n, src, msg), n.log[|n.log| - 1].term;
            var free := msg.term > n.term || n.votedFor == None || n.votedFor == Some(msg.candidateId);
            var granted := free && (msg.lastLogTerm > t || (msg.lastLogTerm == t && msg.lastLogIndex + 1 >= |n.log|));
            && out.sends == [Envelope(n.id, src, VoteResponse(msg.term, granted))] && out.answers == []
            && out.node.term == msg.term && out.node.log == n.log
            && out.node.votedFor == if granted then Some(msg.candidateId)
                                    else if msg.term > n.term then None else n.votedFor
  {
  }

  // ----- Terms -----

  /** A node that takes delivery of a message is then in the later one of the two terms; a newer term makes it
      a follower, and nothing but a reply comes of an older one. */
  lemma {:induction false} TermsSpread(c: Cluster, e: Envelope, d: Cluster)
    requires ClusterOk(c) && Next(c, Deliver(e), d)
    ensures e.dst in c.nodes && e.dst in d.nodes
    ensures var n, m := c.nodes[e.dst], d.nodes[e.dst];
            && m.term == (if e.msg.term > n.term then e.msg.term else n.term)
            && (e.msg.term > n.term ==> m.role.Follower?)
            && (e.msg.term < n.term ==> m == n)
  {
    var n := c.nodes[e.dst];
    assert MemberOk(c, e.dst) && MessageOk(c.h, e);
    match e.msg
    case AppendRequest(_, _, _, _, _, _) => RequestSpreads(c.h, n, e);
    case AppendResponse(_, _, _) => ResponseSpreads(n, e.src, e.msg);
    case VoteRequest(_, _, _, _) =>
    case VoteResponse(_, _) => VoteSpreads(n, e.msg);
  }

  lemma {:induction false} RequestSpreads(h: History, n: Node, e: Envelope)
    requires Receiving(h, n, e) && MessageOk(h, e) && e.msg.AppendRequest? && CanReceive(n, e.msg)
    ensures var m := Receive(n, e.src, e.msg).node;
            && m.term == (if e.msg.term > n.term then e.msg.term else n.term)
            && (e.msg.term >= n.term ==> m.role == AcceptLeader(n, e.msg).role && m.role.Follower?)
            && (e.msg.term < n.term ==> m == n)
  {
    if e.msg.term >= n.term {
      AcceptLeaderOk(h, n, e);
      if LogMatches(n, e.msg) {
        TakeOutcome(h, n, e);
        ApplyKeeps(AppendEntries(AcceptLeader(n, e.msg), e.msg));
      } else {
        MismatchOutcome(h, n, e);
      }
    }
  }

  lemma {:induction false} ResponseSpreads(n: Node, src: NodeId, msg: Message)
    requires n.commitIndex < |n.log| && msg.AppendResponse?
    ensures var m := OnAppendResponse(n, src, msg).node;
            && m.term == (if msg.term > n.term then msg.term else n.term)
            && (msg.term > n.term ==> m.role == Follower(None))
            && (msg.term < n.term ==> m == n)
            && (msg.term == n.term ==> m.role.Leader? == n.role.Leader? && m.role.Follower? == n.role.Follower?)
  {
    if msg.term == n.term && n.role.Leader? {
      ApplyKeeps(AdvanceCommit(RecordResponse(n, src, msg)));
    }
  }

  lemma {:induction false} VoteSpreads(n: Node, msg: Message)
    requires n.commitIndex < |n.log| && msg.VoteResponse?
    ensures var m := OnVoteResponse(n, msg).node;
            && m.term == (if msg.term > n.term then msg.term else n.term)
            && (msg.term > n.term ==> m.role == Follower(None))
            && (msg.term < n.term ==> m == n)
            && (msg.term == n.term ==> !m.role.Follower? || m.role == n.role)
  {
    if n.role.Candidate? {
      ApplyKeeps(AdvanceCommit(TakeLead(CountVote(n))));
    }
  }

  /** Whoever still acts in a term that is over learns of it from the answer: a stale leader's request and a
      stale candidate's request make their sender a follower in the receiver's term. */
  lemma {:induction false} StaleSenderStepsDown(c: Cluster, e: Envelope) returns (d: Cluster, r: Envelope, f: Cluster)
    requires ClusterOk(c) && Deliverable(c.h, e) && (e.msg.AppendRequest? || e.msg.VoteRequest?)
    requires e.src in c.nodes && e.dst in c.nodes && e.msg.term < c.nodes[e.dst].term
    requires c.nodes[e.src].term < c.nodes[e.dst].term
    ensures Next(c, Deliver(e), d) && d.nodes == c.nodes
    ensures r.src == e.dst && r.dst == e.src && Next(d, Deliver(r), f) && ClusterOk(f)
    ensures f.nodes.Keys == c.nodes.Keys
            && f.nodes[e.src].term == c.nodes[e.dst].term && f.nodes[e.src].role.Follower?
  {
    var n := c.nodes[e.dst];
    assert MemberOk(c, e.dst) && MemberOk(c, e.src) && MessageOk(c.h, e);
    assert e.src in Elems(n.peers);
    d, r := StaleAnswered(c, e);
    f := TakeStep(d, Deliver(r));
    TermsSpread(d, r, f);
  }

  lemma {:induction false} StaleAnswered(c: Cluster, e: Envelope) returns (d: Cluster, r: Envelope)
    requires ClusterOk(c) && Deliverable(c.h, e) && (e.msg.AppendRequest? || e.msg.VoteRequest?)
    requires e.dst in c.nodes && e.msg.term < c.nodes[e.dst].term && e.src in c.nodes[e.dst].peers
    ensures Next(c, Deliver(e), d) && ClusterOk(d) && d.nodes == c.nodes
    ensures r.src == e.dst && r.dst == e.src && r.msg.term == c.nodes[e.dst].term && Deliverable(d.h, r)
  {
    var n := c.nodes[e.dst];
    assert MemberOk(c, e.dst);
    StaleRequestIsAnswered(n, e.src, e.msg);
    d := TakeStep(c, Deliver(e));
    var out := Handle(n, Deliver(e));
    r := out.sends[0];
    assert r in Elems(out.sends);
  }

  // ----- Who leads -----

  /** The leader that a follower names is the one of its term. */
  ghost predicate NamesRightly(h: History, n: Node) {
    n.role.Follower? && n.role.leaderId.Some? ==> n.term in h.leaderOf && h.leaderOf[n.term] == n.role.leaderId.value
  }

  ghost predicate AllNameRightly(c: Cluster) {
    forall id {:trigger NamesRightly(c.h, c.nodes[id])} :: id in c.nodes ==> NamesRightly(c.h, c.nodes[id])
  }

  lemma {:induction false} AcceptNames(h: History, n: Node, msg: Message, src: NodeId)
    requires msg.AppendRequest? && msg.term >= n.term && NamesRightly(h, n) && !(n.role.Leader? && msg.term == n.term)
    requires msg.term in h.leaderOf && h.leaderOf[msg.term] == msg.leaderId == src
    ensures AcceptLeader(n, msg).role == Follower(Some(src)) && AcceptLeader(n, msg).term == msg.term
  {
    if msg.term == n.term && n.role.Follower? && n.role.leaderId.Some? {
      assert n.role == Follower(Some(src));
    } else if msg.term == n.term && n.role.Follower? {
      assert n.role == Follower(None);
    }
  }

  /** A request of the node's term or a later one makes it name the sender. */
  lemma {:induction false} RequestNames(h: History, n: Node, e: Envelope)
    requires Receiving(h, n, e) && MessageOk(h, e) && e.msg.AppendRequest? && CanReceive(n, e.msg)
    requires e.msg.term >= n.term && NamesRightly(h, n)
    ensures var m := Receive(n, e.src, e.msg).node;
            m.role == Follower(Some(e.src)) && m.term == e.msg.term && NamesRightly(h, m)
  {
    RequestSpreads(h, n, e);
    AcceptNames(h, n, e.msg, e.src);
  }

  lemma {:induction false} ReceiveNames(h: History, n: Node, e: Envelope)
    requires Receiving(h, n, e) && MessageOk(h, e) && CanReceive(n, e.msg) && NamesRightly(h, n)
    ensures NamesRightly(h, Receive(n, e.src, e.msg).node)
  {
    match e.msg
    case AppendRequest(_, _, _, _, _, _) =>
      if e.msg.term >= n.term {
        RequestNames(h, n, e);
      }
    case AppendResponse(_, _, _) =>
      ResponseSpreads(n, e.src, e.msg);
      if e.msg.term == n.term && !n.role.Leader? {
        ResponseKeepsFollower(n, e.src, e.msg);
      }
    case VoteRequest(_, _, _, _) =>
    case VoteResponse(_, _) => VoteSpreads(n, e.msg);
  }

  lemma {:induction false} ResponseKeepsFollower(n: Node, src: NodeId, msg: Message)
    requires n.commitIndex < |n.log| && msg.AppendResponse? && msg.term == n.term && !n.role.Leader?
    ensures OnAppendResponse(n, src, msg).node == n
  {
  }

  lemma {:induction false} HandlerNames(h: History, n: Node, ev: Event)
    requires HistoryOk(h) && NodeOk(h, n) && Actor(ev) == n.id && Enabled(h, n, ev) && NoPanic(n, ev)
    requires NamesRightly(h, n)
    ensures NamesRightly(h, Handle(n, ev).node)
  {
    match ev
    case Timeout(_) => CandidateNames(n);
    case Heartbeat(_) =>
    case Client(_, command, ticket) =>
      if n.role.Leader? {
        ApplyKeeps(AdvanceCommit(ClientAppend(n, command, ticket)));
      }
    case Deliver(e) =>
      assert MessageOk(h, e);
      ReceiveNames(h, n, e);
    case Crash(_) =>
    case CrashAfterStepDown(_) =>
  }

  lemma {:induction false} CandidateNames(n: Node)
    requires n.commitIndex < |n.log|
    ensures !BecomeCandidate(n).node.role.Follower?
  {
    ApplyKeeps(AdvanceCommit(TakeLead(StartCandidacy(n))));
  }

  lemma {:induction false} StepNames(c: Cluster, ev: Event, d: Cluster)
    requires ClusterOk(c) && AllNameRightly(c) && Next(c, ev, d)
    ensures AllNameRightly(d)
  {
    var id := Actor(ev);
    assert MemberOk(c, id);
    HandlerNames(c.h, c.nodes[id], ev);
    NextPreserves(c, ev, d);
    forall p | p in d.nodes
      ensures NamesRightly(d.h, d.nodes[p])
    {
      if p != id {
        assert NamesRightly(c.h, c.nodes[p]);
      }
    }
  }

  lemma {:induction false} InitNames(c: Cluster)
    requires Init(c)
    ensures AllNameRightly(c)
  {
    forall id | id in c.nodes
      ensures NamesRightly(c.h, c.nodes[id])
    {
      NewNodePeers(c.h.members, c.nodes[id]);
    }
  }

  lemma {:induction false} RunNames(states: seq<Cluster>, events: seq<Event>, i: nat)
    requires IsRun(states, events) && i < |states|
    ensures AllNameRightly(states[i])
  {
    if i == 0 {
      InitNames(states[0]);
    } else {
      RunNames(states, events, i - 1);
      NamesAt(states, events, i - 1);
    }
  }

  lemma {:induction false} NamesAt(states: seq<Cluster>, events: seq<Event>, i: nat)
    requires IsRun(states, events) && i < |events| && AllNameRightly(states[i])
    ensures AllNameRightly(states[i + 1])
  {
    RunOk(states, events, i);
    RunStep(states, events, i);
    StepNames(states[i], events[i], states[i + 1]);
  }

  /** What a client is told that turns to the wrong node: in every run, the node named is the leader of the
      refusing node's term, whenever and wherever that term is led. A node that names nobody is a candidate, or
      a follower that has taken no request of a leader since it became one. */
  lemma {:induction false} RefusalNamesLeader(states: seq<Cluster>, events: seq<Event>, i: nat, j: nat, id: NodeId,
                                              q: NodeId)
    requires IsRun(states, events) && i < |states| && j < |states| && id in states[i].nodes && q in states[j].nodes
    ensures match RequireLeader(states[i].nodes[id].role)
            case None => states[i].nodes[id].role.Leader?
            case Some(NotLeader(l)) =>
              && states[i].nodes[id].role == Follower(Some(l)) && l in states[i].nodes
              && (states[j].nodes[q].role.Leader? && states[j].nodes[q].term == states[i].nodes[id].term ==> q == l)
            case Some(NoLeader) => states[i].nodes[id].role.Candidate? || states[i].nodes[id].role == Follower(None)
  {
    var n := states[i].nodes[id];
    RunNames(states, events, i);
    RunOk(states, events, i);
    RunOk(states, events, j);
    assert NamesRightly(states[i].h, n) && MemberOk(states[j], q);
    if n.role.Follower? && n.role.leaderId.Some? {
      if states[j].nodes[q].role.Leader? && states[j].nodes[q].term == n.term {
        NamedIsLeader(states, events, i, j, n.term, q);
      }
      NamedIsMember(states[i], n.term);
    }
  }

  lemma {:induction false} NamedIsMember(c: Cluster, t: Term)
    requires ClusterOk(c) && t in c.h.leaderOf
    ensures c.h.leaderOf[t] in c.nodes
  {
    assert ReignOk(c.h, t);
    assert CandidacyOk(c.h, t, c.h.leaderOf[t]);
  }

  lemma {:induction false} NamedIsLeader(states: seq<Cluster>, events: seq<Event>, i: nat, j: nat, t: Term, q: NodeId)
    requires IsRun(states, events) && i < |states| && j < |states| && t in states[i].h.leaderOf
    requires q in states[j].nodes && states[j].nodes[q].role.Leader? && states[j].nodes[q].term == t
    ensures q == states[i].h.leaderOf[t]
  {
    RunOk(states, events, j);
    assert MemberOk(states[j], q);
    if i <= j {
      RunGrows(states, events, i, j);
    } else {
      RunGrows(states, events, j, i);
    }
  }

  /** A follower that has taken a request in its term names that leader to its clients. */
  lemma {:induction false} RequestInformsClients(c: Cluster, e: Envelope, d: Cluster)
    requires ClusterOk(c) && AllNameRightly(c) && Next(c, Deliver(e), d) && e.msg.AppendRequest?
    requires e.dst in c.nodes && e.msg.term >= c.nodes[e.dst].term
    ensures e.dst in d.nodes && RequireLeader(d.nodes[e.dst].role) == Some(NotLeader(e.src))
  {
    var n := c.nodes[e.dst];
    assert MemberOk(c, e.dst) && MessageOk(c.h, e) && NamesRightly(c.h, n);
    RequestNames(c.h, n, e);
  }
}
